/** What the reorder buffer promises over every run of packets and wake-ups: `ims/rtp_reorder.rs`. */
module ReorderRuns {
  import opened Wrappers
  import opened Seqs
  import opened Reorder

  // ----- reading the delivered packets ----------------------------------

  function OfSource(out: seq<Packet>, ssrc: nat): seq<Packet> {
    if out == [] then []
    else
      var x := out[|out| - 1];
      OfSource(out[..|out| - 1], ssrc) + (if x.ssrc == ssrc then [x] else [])
  }

  function Identities(ps: seq<Packet>): (r: seq<Identity>)
    ensures |r| == |ps|
  {
    seq(|ps|, i requires 0 <= i < |ps| => IdentityOf(ps[i]))
  }

  /** One full cycle of the latest entries. */
  function Window(xs: seq<Identity>): (r: seq<Identity>)
    ensures |r| <= CYCLE
  {
    if |xs| <= CYCLE then xs else xs[|xs| - CYCLE..]
  }

  /** The identities of the last 65536 packets delivered from a source. */
  function Lately(out: seq<Packet>, ssrc: nat): seq<Identity> { Window(Identities(OfSource(out, ssrc))) }

  predicate StartsSource(before: seq<Packet>, x: Packet) { forall q | q in before :: q.ssrc != x.ssrc }

  /** Ahead of the last delivered packet of the same source, by at most half a cycle. */
  predicate Continues(before: seq<Packet>, x: Packet) {
    && before != [] && before[|before| - 1].ssrc == x.ssrc
    && 1 <= Ahead(before[|before| - 1].seqNo, x.seqNo) <= HALF
  }

  /** Two consecutive packets that arrived within a second, at least 100 behind the last delivered one,
      neither carrying media delivered lately. */
  predicate Restarts(before: seq<Packet>, c: Packet, x: Packet) {
    && before != [] && before[|before| - 1].ssrc == c.ssrc == x.ssrc
    && RECENT <= Ahead(c.seqNo, before[|before| - 1].seqNo) < HALF
    && x.seqNo == Succ(c.seqNo) && c.at <= x.at < c.at + CONFIRM
    && IdentityOf(c) !in Lately(before, c.ssrc) && IdentityOf(x) !in Lately(before, c.ssrc)
  }

  /** Every packet starts a source never heard before, continues its source in order, or belongs to a
      confirmed restart. */
  predicate Explained(out: seq<Packet>)
    decreases |out|
  {
    || out == []
    || (var before, x := out[..|out| - 1], out[|out| - 1];
        Explained(before) && (StartsSource(before, x) || Continues(before, x)))
    || (|out| >= 2 && Explained(out[..|out| - 2]) && Restarts(out[..|out| - 2], out[|out| - 2], out[|out| - 1]))
  }

  predicate NoDuplicates(out: seq<Packet>) {
    out == [] || (out[|out| - 1] !in out[..|out| - 1] && NoDuplicates(out[..|out| - 1]))
  }

  // ----- the delivery history -------------------------------------------

  ghost predicate Counts(m: map<Identity, int>, order: seq<Identity>) {
    forall i :: (i in m <==> i in order) && (i in m ==> m[i] == multiset(order)[i])
  }

  lemma {:induction false} BumpCounts(m: map<Identity, int>, order: seq<Identity>, i: Identity)
    requires Counts(m, order)
    ensures Counts(Bumped(m, i), order + [i])
  {
    var all := order + [i];
    forall j
      ensures (j in Bumped(m, i) <==> j in all) && (j in Bumped(m, i) ==> Bumped(m, i)[j] == multiset(all)[j])
    {
      assert j in all <==> j in order || j == i;
    }
  }

  lemma {:induction false} DropCounts(m: map<Identity, int>, order: seq<Identity>)
    requires Counts(m, order) && order != []
    ensures Counts(Dropped(m, order[0]), order[1..])
  {
    var rest, n := order[1..], Dropped(m, order[0]);
    assert order == [order[0]] + rest;
    forall j
      ensures (j in n <==> j in rest) && (j in n ==> n[j] == multiset(rest)[j])
    {
      assert j in rest <==> multiset(rest)[j] > 0;
      assert multiset(order)[j] == multiset(rest)[j] + if j == order[0] then 1 else 0;
    }
  }

  lemma {:induction false} WindowSnoc(xs: seq<Identity>, i: Identity)
    ensures Window(xs + [i]) == if |Window(xs)| < CYCLE then Window(xs) + [i] else (Window(xs) + [i])[1..]
  {
    if |xs| >= CYCLE {
      assert (xs + [i])[|xs| + 1 - CYCLE..] == (xs[|xs| - CYCLE..] + [i])[1..];
    }
  }

  lemma {:induction false} LatelySnoc(out: seq<Packet>, p: Packet)
    ensures Lately(out + [p], p.ssrc)
            == if |Lately(out, p.ssrc)| < CYCLE then Lately(out, p.ssrc) + [IdentityOf(p)]
               else (Lately(out, p.ssrc) + [IdentityOf(p)])[1..]
  {
    assert (out + [p])[..|out|] == out;
    var ps := OfSource(out, p.ssrc);
    assert Identities(ps + [p]) == Identities(ps) + [IdentityOf(p)];
    WindowSnoc(Identities(ps), IdentityOf(p));
  }

  /** The counted history is the window of identities delivered from the current source. */
  ghost predicate Remembers(s: State, out: seq<Packet>) {
    && s.order == (if s.ssrc.Some? then Lately(out, s.ssrc.value) else [])
    && Counts(s.delivered, s.order)
  }

  lemma {:induction false} RememberKeeps(s: State, out: seq<Packet>, p: Packet)
    requires Remembers(s, out) && s.ssrc == Some(p.ssrc)
    ensures Remembers(Remember(s, p), out + [p])
  {
    var i := IdentityOf(p);
    LatelySnoc(out, p);
    BumpCounts(s.delivered, s.order, i);
    if |s.order| == CYCLE {
      DropCounts(Bumped(s.delivered, i), s.order + [i]);
    }
  }

  // ----- sequence number arithmetic -------------------------------------

  lemma {:induction false} AheadOfSucc(last: Seq16, q: Seq16)
    requires Ahead(Succ(last), q) < HALF
    ensures Ahead(last, q) == Ahead(Succ(last), q) + 1
  {}

  lemma {:induction false} AheadFromNext(e: Seq16, a: Seq16, b: Seq16)
    requires Ahead(e, a) < Ahead(e, b)
    ensures Ahead(Succ(a), b) == Ahead(e, b) - Ahead(e, a) - 1
  {}

  lemma {:induction false} AheadAfterSucc(e: Seq16, k: Seq16)
    requires 0 < Ahead(e, k)
    ensures Ahead(Succ(e), k) == Ahead(e, k) - 1
  {}

  lemma {:induction false} BackFromLast(c: Seq16, last: Seq16)
    requires 0 < Ahead(c, Succ(last))
    ensures Ahead(c, last) == Ahead(c, Succ(last)) - 1
  {}

  lemma {:induction false} BehindMeans(e: Seq16, q: Seq16)
    requires Ahead(e, q) >= HALF
    ensures 0 < Ahead(q, e) <= HALF
  {}

  // ----- what every call keeps ------------------------------------------

  /** The part of the state the delivered packets determine. */
  ghost predicate Shape(s: State, out: seq<Packet>) {
    && (out == [] <==> s.ssrc == None)
    && (out != [] ==> s.ssrc == Some(out[|out| - 1].ssrc) && s.expected == Succ(out[|out| - 1].seqNo))
    && forall q | q in out :: q.ssrc in s.retired || s.ssrc == Some(q.ssrc)
  }

  /** Queued packets belong to the source, lie at least `lo` and less than half a cycle ahead, and the
      deadline is at most the allowed wait after each of them arrived. */
  ghost predicate Queue(s: State, lo: nat) {
    && (s.deadline.Some? <==> s.pending != map[])
    && forall k | k in s.pending ::
         && s.pending[k].seqNo == k && s.ssrc == Some(s.pending[k].ssrc)
         && lo <= Ahead(s.expected, k) < HALF
         && s.deadline.Some? && s.deadline.value <= s.pending[k].at + s.maxWait
  }

  /** A restart candidate is far enough behind and carries nothing delivered lately. */
  ghost predicate Probation(s: State) {
    s.candidate.Some? ==>
      var c := s.candidate.value.packet;
      && s.ssrc == Some(c.ssrc) && IdentityOf(c) !in s.delivered
      && RECENT < Ahead(c.seqNo, s.expected) <= HALF
      && s.candidate.value.since == c.at
  }

  /** Nothing waits past its time. */
  predicate Timely(s: State, now: nat) {
    && (s.deadline.Some? ==> now < s.deadline.value <= now + s.maxWait)
    && (s.candidate.Some? ==> s.candidate.value.since <= now < s.candidate.value.since + CONFIRM)
  }

  /** An arrival, unchanged. */
  predicate Genuine(p: Packet, arrived: seq<Packet>) { p.id < |arrived| && arrived[p.id] == p }

  /** Everything delivered, queued or on probation arrived, and nothing is in two of these places or
      delivered twice. */
  ghost predicate Once(s: State, out: seq<Packet>, arrived: seq<Packet>) {
    && NoDuplicates(out)
    && (forall q | q in out :: Genuine(q, arrived))
    && (forall k | k in s.pending :: Genuine(s.pending[k], arrived) && s.pending[k] !in out)
    && (s.candidate.Some? ==> Genuine(s.candidate.value.packet, arrived) && s.candidate.value.packet !in out)
  }

  ghost predicate Good(s: State, out: seq<Packet>, arrived: seq<Packet>) {
    && Shape(s, out) && Remembers(s, out) && Explained(out)
    && Queue(s, 1) && Probation(s) && Once(s, out, arrived)
  }

  // ----- delivering in order --------------------------------------------

  lemma {:induction false} NoDuplicatesSnoc(out: seq<Packet>, p: Packet)
    requires NoDuplicates(out) && p !in out
    ensures NoDuplicates(out + [p])
  {
    assert (out + [p])[..|out|] == out;
  }

  /** Batches: in order, ahead, from the source. */
  ghost predicate Sorted(s: State, keys: seq<Seq16>, ps: seq<Packet>) {
    && |ps| == |keys|
    && (forall i | 0 <= i < |ps| ::
          ps[i].seqNo == keys[i] && s.ssrc == Some(ps[i].ssrc) && Ahead(s.expected, keys[i]) < HALF)
    && (forall i, j | 0 <= i < j < |keys| :: Ahead(s.expected, keys[i]) < Ahead(s.expected, keys[j]))
  }

  lemma {:induction false} RememberAllSsrc(s: State, ps: seq<Packet>)
    ensures var t := RememberAll(s, ps); t == s.(delivered := t.delivered, order := t.order)
  {
    if ps != [] { RememberAllSsrc(s, ps[..|ps| - 1]); }
  }

  lemma {:induction false} TakeSnoc(out: seq<Packet>, ps: seq<Packet>, i: nat)
    requires 0 < i <= |ps|
    ensures out + ps[..i] == out + ps[..i - 1] + [ps[i - 1]]
  {}

  lemma {:induction false} RemembersBatch(s: State, out: seq<Packet>, ps: seq<Packet>, i: nat)
    requires Remembers(s, out) && i <= |ps| && forall j | 0 <= j < |ps| :: s.ssrc == Some(ps[j].ssrc)
    ensures Remembers(RememberAll(s, ps[..i]), out + ps[..i])
  {
    if i == 0 {
      assert out + ps[..0] == out;
    } else {
      RemembersBatch(s, out, ps, i - 1);
      RememberAllSsrc(s, ps[..i - 1]);
      RememberKeeps(RememberAll(s, ps[..i - 1]), out + ps[..i - 1], ps[i - 1]);
      RememberAllTake(s, ps, i - 1);
      TakeSnoc(out, ps, i);
    }
  }

  lemma {:induction false} BatchContinues(s: State, out: seq<Packet>, keys: seq<Seq16>, ps: seq<Packet>, i: nat)
    requires Shape(s, out) && out != [] && Sorted(s, keys, ps) && i < |ps|
    ensures Continues(out + ps[..i], ps[i])
  {
    if i == 0 {
      assert out + ps[..0] == out;
      AheadOfSucc(out[|out| - 1].seqNo, keys[0]);
    } else {
      AheadFromNext(s.expected, keys[i - 1], keys[i]);
      AheadOfSucc(keys[i - 1], keys[i]);
      assert (out + ps[..i])[|out| + i - 1] == ps[i - 1];
    }
  }

  lemma {:induction false} ExplainedBatch(s: State, out: seq<Packet>, keys: seq<Seq16>, ps: seq<Packet>, i: nat)
    requires Shape(s, out) && out != [] && Explained(out) && Sorted(s, keys, ps) && i <= |ps|
    ensures Explained(out + ps[..i])
  {
    if i == 0 {
      assert out + ps[..0] == out;
    } else {
      ExplainedBatch(s, out, keys, ps, i - 1);
      BatchContinues(s, out, keys, ps, i - 1);
      TakeSnoc(out, ps, i);
      ExplainedSnoc(out + ps[..i - 1], ps[i - 1]);
    }
  }

  lemma {:induction false} ExplainedSnoc(out: seq<Packet>, p: Packet)
    requires Explained(out) && (StartsSource(out, p) || Continues(out, p))
    ensures Explained(out + [p])
  {
    assert (out + [p])[..|out|] == out;
  }

  lemma {:induction false} NoDuplicatesBatch(out: seq<Packet>, ps: seq<Packet>)
    requires NoDuplicates(out) && (forall i | 0 <= i < |ps| :: ps[i] !in out)
    requires forall i, j | 0 <= i < j < |ps| :: ps[i] != ps[j]
    ensures NoDuplicates(out + ps)
  {
    if ps == [] {
      assert out + ps == out;
    } else {
      var init, p := ps[..|ps| - 1], ps[|ps| - 1];
      NoDuplicatesBatch(out, init);
      assert p !in out + init;
      NoDuplicatesSnoc(out + init, p);
      assert out + ps == out + init + [p];
    }
  }

  // ----- releasing the queue --------------------------------------------

  lemma {:induction false} RememberAllFrame(s: State, t: State, ps: seq<Packet>)
    requires s.delivered == t.delivered && s.order == t.order
    ensures RememberAll(s, ps).delivered == RememberAll(t, ps).delivered
    ensures RememberAll(s, ps).order == RememberAll(t, ps).order
  {
    if ps != [] { RememberAllFrame(s, t, ps[..|ps| - 1]); }
  }

  lemma {:induction false} ReleaseIs(s: State)
    ensures var (t, ps) := Release(s);
            && ps == Batch(s.pending, s.expected)
            && t == s.(candidate := None, deadline := None, pending := map[],
                       expected := AfterBatch(s.pending, s.expected),
                       delivered := RememberAll(s, ps).delivered, order := RememberAll(s, ps).order)
  {
    var ps := Batch(s.pending, s.expected);
    var t := s.(candidate := None, deadline := None, pending := map[], expected := AfterBatch(s.pending, s.expected));
    RememberAllFrame(s, t, ps);
    RememberAllSsrc(t, ps);
  }

  lemma {:induction false} BatchIsSorted(s: State)
    requires Queue(s, 0)
    ensures var keys, ps := KeysFrom(s.pending.Keys, s.expected, 0), Batch(s.pending, s.expected);
            && Sorted(s, keys, ps)
            && forall i | 0 <= i < |ps| :: keys[i] in s.pending && ps[i] == s.pending[keys[i]]
  {
    var keys := KeysFrom(s.pending.Keys, s.expected, 0);
    KeysInOrder(s.pending.Keys, s.expected, 0);
    assert forall i | 0 <= i < |keys| :: keys[i] in keys;
  }

  /** Releasing delivers everything queued. */
  lemma {:induction false} BatchIsComplete(s: State, k: Seq16)
    requires k in s.pending
    ensures s.pending[k] in Batch(s.pending, s.expected)
  {
    var keys, ps := KeysFrom(s.pending.Keys, s.expected, 0), Batch(s.pending, s.expected);
    KeysInOrder(s.pending.Keys, s.expected, 0);
    assert k in keys;
    var i :| 0 <= i < |keys| && keys[i] == k;
    assert ps[i] == s.pending[k];
  }

  lemma {:induction false} ReleaseShape(s: State, out: seq<Packet>)
    requires Shape(s, out) && Queue(s, 0)
    ensures Shape(Release(s).0, out + Release(s).1)
  {
    ReleaseIs(s);
    BatchIsSorted(s);
    var keys, ps := KeysFrom(s.pending.Keys, s.expected, 0), Batch(s.pending, s.expected);
    if ps == [] {
      assert out + ps == out;
    } else {
      assert (out + ps)[|out + ps| - 1] == ps[|ps| - 1];
      forall q | q in out + ps
        ensures q.ssrc in s.retired || s.ssrc == Some(q.ssrc)
      {
        if q !in out {
          var i :| 0 <= i < |ps| && ps[i] == q;
        }
      }
    }
  }

  lemma {:induction false} BatchIsNew(s: State, out: seq<Packet>, arrived: seq<Packet>)
    requires Once(s, out, arrived) && Queue(s, 0)
    ensures var ps := Batch(s.pending, s.expected);
            && (forall i | 0 <= i < |ps| :: ps[i] !in out && Genuine(ps[i], arrived))
            && (forall i, j | 0 <= i < j < |ps| :: ps[i] != ps[j])
  {
    BatchIsSorted(s);
    var keys, ps := KeysFrom(s.pending.Keys, s.expected, 0), Batch(s.pending, s.expected);
    forall i, j | 0 <= i < j < |ps|
      ensures ps[i] != ps[j]
    {
      assert keys[i] != keys[j];
    }
  }

  lemma {:induction false} ReleaseOnce(s: State, out: seq<Packet>, arrived: seq<Packet>)
    requires Once(s, out, arrived) && Queue(s, 0)
    ensures Once(Release(s).0, out + Release(s).1, arrived)
  {
    var ps := Batch(s.pending, s.expected);
    BatchIsNew(s, out, arrived);
    NoDuplicatesBatch(out, ps);
    ReleaseEmpties(s);
    forall q | q in out + ps
      ensures Genuine(q, arrived)
    {
      if q !in out {
        var i :| 0 <= i < |ps| && ps[i] == q;
      }
    }
  }

  lemma {:induction false} ReleaseRemembers(s: State, out: seq<Packet>)
    requires Remembers(s, out) && Queue(s, 0)
    ensures Remembers(Release(s).0, out + Release(s).1)
  {
    var ps := Batch(s.pending, s.expected);
    BatchSource(s);
    RemembersWhole(s, out, ps);
    var t, u := RememberAll(s, ps), Release(s).0;
    assert u.ssrc == t.ssrc && u.order == t.order && u.delivered == t.delivered by {
      ReleaseIs(s);
      RememberAllSsrc(s, ps);
    }
    RemembersSame(t, u, out + ps);
  }

  lemma {:induction false} BatchSource(s: State)
    requires Queue(s, 0)
    ensures var ps := Batch(s.pending, s.expected); forall j | 0 <= j < |ps| :: s.ssrc == Some(ps[j].ssrc)
  {
    BatchIsSorted(s);
  }

  lemma {:induction false} RemembersWhole(s: State, out: seq<Packet>, ps: seq<Packet>)
    requires Remembers(s, out) && forall j | 0 <= j < |ps| :: s.ssrc == Some(ps[j].ssrc)
    ensures Remembers(RememberAll(s, ps), out + ps)
  {
    assert ps[..|ps|] == ps;
    RemembersBatch(s, out, ps, |ps|);
  }

  lemma {:induction false} RemembersSame(s: State, t: State, out: seq<Packet>)
    requires Remembers(s, out) && t.ssrc == s.ssrc && t.order == s.order && t.delivered == s.delivered
    ensures Remembers(t, out)
  {}

  lemma {:induction false} ReleaseExplained(s: State, out: seq<Packet>)
    requires Shape(s, out) && Explained(out) && Queue(s, 0)
    ensures Explained(out + Release(s).1)
  {
    BatchIsSorted(s);
    var keys, ps := KeysFrom(s.pending.Keys, s.expected, 0), Batch(s.pending, s.expected);
    if ps == [] {
      assert out + ps == out;
    } else {
      assert keys[0] in s.pending;
      ExplainedBatch(s, out, keys, ps, |ps|);
      assert ps[..|ps|] == ps;
    }
  }

  lemma {:induction false} ReleaseEmpties(s: State)
    ensures var t := Release(s).0; t.pending == map[] && t.deadline == None && t.candidate == None
  {
    ReleaseIs(s);
  }

  lemma {:induction false} ReleaseKeeps(s: State, out: seq<Packet>, arrived: seq<Packet>)
    requires Shape(s, out) && Remembers(s, out) && Explained(out) && Queue(s, 0) && Once(s, out, arrived)
    ensures Good(Release(s).0, out + Release(s).1, arrived)
    ensures Release(s).0.deadline == None && Release(s).0.candidate == None
  {
    ReleaseShape(s, out);
    ReleaseOnce(s, out, arrived);
    ReleaseRemembers(s, out);
    ReleaseExplained(s, out);
    ReleaseEmpties(s);
  }

  lemma {:induction false} GoodRelease(s: State, out: seq<Packet>, arrived: seq<Packet>)
    requires Good(s, out, arrived)
    ensures Good(Release(s).0, out + Release(s).1, arrived)
    ensures Release(s).0.deadline == None && Release(s).0.candidate == None
  {
    assert Queue(s, 0);
    ReleaseKeeps(s, out, arrived);
  }

  lemma {:induction false} ExpiredKeeps(s: State, out: seq<Packet>, arrived: seq<Packet>, was: nat, now: nat)
    requires Good(s, out, arrived) && Timely(s, was) && was <= now
    ensures var t := Expired(s, now);
            && Good(t, out, arrived) && t.deadline == s.deadline && t.maxWait == s.maxWait
            && (t.candidate.Some? ==> t.candidate.value.since <= now < t.candidate.value.since + CONFIRM)
  {
    CandidateKeeps(s, out, arrived, Expired(s, now).candidate);
  }

  lemma {:induction false} FlushKeeps(s: State, out: seq<Packet>, arrived: seq<Packet>, was: nat, now: nat)
    requires Good(s, out, arrived) && Timely(s, was) && was <= now
    ensures Good(Flush(s, now).0, out + Flush(s, now).1, arrived) && Timely(Flush(s, now).0, now)
  {
    var t := Expired(s, now);
    ExpiredKeeps(s, out, arrived, was, now);
    if t.deadline.Some? && now >= t.deadline.value {
      GoodRelease(t, out, arrived);
    } else {
      assert out + [] == out;
    }
  }

  // ----- one packet -----------------------------------------------------

  /** A packet that has just arrived is nowhere yet. */
  lemma {:induction false} ArrivalIsNew(s: State, out: seq<Packet>, arrived: seq<Packet>, p: Packet)
    requires Once(s, out, arrived) && p.id == |arrived|
    ensures Once(s, out, arrived + [p]) && p !in out && Genuine(p, arrived + [p])
    ensures forall k | k in s.pending :: s.pending[k] != p
    ensures s.candidate.Some? ==> s.candidate.value.packet != p
  {
    assert forall q | q in out :: q.id < |arrived|;
    assert forall q: Packet | Genuine(q, arrived) :: Genuine(q, arrived + [p]);
  }

  lemma {:induction false} OfSourceNew(out: seq<Packet>, p: Packet)
    requires StartsSource(out, p)
    ensures OfSource(out, p.ssrc) == []
  {
    if out != [] {
      assert forall q | q in out[..|out| - 1] :: q in out;
      assert out[|out| - 1] in out;
      OfSourceNew(out[..|out| - 1], p);
    }
  }

  lemma {:induction false} NewSourceRemembers(s: State, out: seq<Packet>, p: Packet)
    requires StartsSource(out, p)
    ensures Remembers(NewSource(s, p), out + [p])
  {
    OfSourceNew(out, p);
    var t := s.(delivered := map[], order := [], ssrc := Some(p.ssrc));
    assert Identities([]) == [];
    RememberKeeps(t, out, p);
  }

  lemma {:induction false} NewSourceKeeps(s: State, out: seq<Packet>, arrived: seq<Packet>, p: Packet)
    requires Good(s, out, arrived) && p.id == |arrived| && s.ssrc != Some(p.ssrc) && p.ssrc !in s.retired
    ensures Good(NewSource(s, p), out + [p], arrived + [p])
    ensures NewSource(s, p).deadline == None && NewSource(s, p).candidate == None
  {
    assert StartsSource(out, p);
    NewSourceRemembers(s, out, p);
    ExplainedSnoc(out, p);
    NewSourceOnce(s, out, arrived, p);
    NewSourceShape(s, out, p);
  }

  lemma {:induction false} NewSourceShape(s: State, out: seq<Packet>, p: Packet)
    requires Shape(s, out)
    ensures Shape(NewSource(s, p), out + [p])
  {}

  lemma {:induction false} NewSourceOnce(s: State, out: seq<Packet>, arrived: seq<Packet>, p: Packet)
    requires Once(s, out, arrived) && p.id == |arrived|
    ensures Once(NewSource(s, p), out + [p], arrived + [p])
  {
    ArrivalIsNew(s, out, arrived, p);
    NoDuplicatesSnoc(out, p);
  }

  lemma {:induction false} TwoSnoc(out: seq<Packet>, c: Packet, p: Packet)
    ensures out + [c, p] == out + [c] + [p]
    ensures (out + [c, p])[..|out|] == out
  {}

  lemma {:induction false} RestartRemembers(s: State, out: seq<Packet>, c: Packet, p: Packet)
    requires Remembers(s, out) && s.ssrc == Some(c.ssrc) == Some(p.ssrc)
    ensures Remembers(Restarted(s, c, p), out + [c, p])
  {
    RememberKeeps(s, out, c);
    RememberKeeps(Remember(s, c), out + [c], p);
    TwoSnoc(out, c, p);
  }

  lemma {:induction false} RestartExplained(s: State, out: seq<Packet>, p: Packet, now: nat)
    requires Shape(s, out) && Remembers(s, out) && Explained(out) && Probation(s) && Timely(s, now)
    requires s.ssrc == Some(p.ssrc) && p.at == now && IdentityOf(p) !in s.delivered
    requires s.candidate.Some? && p.seqNo == Succ(s.candidate.value.packet.seqNo)
    ensures Explained(out + [s.candidate.value.packet, p])
  {
    var c := s.candidate.value.packet;
    BackFromLast(c.seqNo, out[|out| - 1].seqNo);
    assert Restarts(out, c, p);
    TwoSnoc(out, c, p);
  }

  lemma {:induction false} RestartOnce(s: State, out: seq<Packet>, arrived: seq<Packet>, p: Packet)
    requires Once(s, out, arrived) && p !in out && Genuine(p, arrived)
    requires s.candidate.Some? && p.seqNo == Succ(s.candidate.value.packet.seqNo)
    ensures Once(Restarted(s, s.candidate.value.packet, p), out + [s.candidate.value.packet, p], arrived)
  {
    var c := s.candidate.value.packet;
    assert c != p by { SuccDiffers(c.seqNo); }
    assert NoDuplicates(out + [c, p]) by {
      NoDuplicatesSnoc(out, c);
      NoDuplicatesSnoc(out + [c], p);
      TwoSnoc(out, c, p);
    }
    forall q | q in out + [c, p]
      ensures Genuine(q, arrived)
    {
      assert q in out || q == c || q == p;
    }
  }

  lemma {:induction false} SuccDiffers(q: Seq16)
    ensures Succ(q) != q
  {}

  lemma {:induction false} RestartKeeps(s: State, out: seq<Packet>, arrived: seq<Packet>, p: Packet, now: nat)
    requires Good(s, out, arrived) && Timely(s, now) && Genuine(p, arrived) && p !in out
    requires s.ssrc == Some(p.ssrc) && p.at == now && IdentityOf(p) !in s.delivered
    requires s.candidate.Some? && p.seqNo == Succ(s.candidate.value.packet.seqNo)
    ensures Good(Restarted(s, s.candidate.value.packet, p), out + [s.candidate.value.packet, p], arrived)
  {
    var c := s.candidate.value.packet;
    RestartRemembers(s, out, c, p);
    RestartExplained(s, out, p, now);
    RestartOnce(s, out, arrived, p);
    RestartShape(s, out, c, p);
  }

  lemma {:induction false} RestartShape(s: State, out: seq<Packet>, c: Packet, p: Packet)
    requires Shape(s, out) && s.ssrc == Some(c.ssrc) == Some(p.ssrc)
    ensures Shape(Restarted(s, c, p), out + [c, p])
  {}

  lemma {:induction false} BehindKeeps(s: State, out: seq<Packet>, arrived: seq<Packet>, p: Packet, now: nat)
    requires Good(s, out, arrived) && Timely(s, now) && Genuine(p, arrived) && p !in out
    requires s.ssrc == Some(p.ssrc) && p.at == now && Ahead(s.expected, p.seqNo) >= HALF
    ensures Good(Behind(s, p, now).0, out + Behind(s, p, now).1, arrived) && Timely(Behind(s, p, now).0, now)
  {
    if IdentityOf(p) !in s.delivered && s.candidate.Some? && p.seqNo == Succ(s.candidate.value.packet.seqNo) {
      RestartKeeps(s, out, arrived, p, now);
    } else {
      LateCandidate(s, p, now);
      CandidateKeeps(s, out, arrived, Behind(s, p, now).0.candidate);
      assert out + [] == out;
    }
  }

  /** A late packet that confirms nothing changes the candidate only. */
  lemma {:induction false} LateCandidate(s: State, p: Packet, now: nat)
    requires Probation(s) && Timely(s, now) && s.ssrc == Some(p.ssrc) && p.at == now
    requires Ahead(s.expected, p.seqNo) >= HALF
    requires IdentityOf(p) in s.delivered || s.candidate == None || p.seqNo != Succ(s.candidate.value.packet.seqNo)
    ensures var (t, ready) := Behind(s, p, now);
            && ready == [] && t == s.(candidate := t.candidate) && Probation(t) && Timely(t, now)
            && (t.candidate == None || t.candidate == s.candidate || t.candidate.value.packet == p)
  {
    BehindMeans(s.expected, p.seqNo);
  }

  lemma {:induction false} CandidateKeeps(s: State, out: seq<Packet>, arrived: seq<Packet>, c: Option<Candidate>)
    requires Good(s, out, arrived) && Probation(s.(candidate := c))
    requires c.Some? ==> Genuine(c.value.packet, arrived) && c.value.packet !in out
    ensures Good(s.(candidate := c), out, arrived)
  {
    RemembersSame(s, s.(candidate := c), out);
  }

  function InTurnState(s: State, p: Packet): State {
    Remember(s.(candidate := None, expected := Succ(p.seqNo)), p)
  }

  lemma {:induction false} InTurnDelivers(s: State, out: seq<Packet>, p: Packet)
    requires Shape(s, out) && Remembers(s, out) && Explained(out) && s.ssrc == Some(p.ssrc) && s.expected == p.seqNo
    ensures var t := InTurnState(s, p); Shape(t, out + [p]) && Remembers(t, out + [p]) && Explained(out + [p])
  {
    InTurnExplained(s, out, p);
    RememberKeeps(s, out, p);
    RemembersSame(Remember(s, p), InTurnState(s, p), out + [p]);
  }

  lemma {:induction false} InTurnExplained(s: State, out: seq<Packet>, p: Packet)
    requires Shape(s, out) && Explained(out) && s.ssrc == Some(p.ssrc) && s.expected == p.seqNo
    ensures Shape(InTurnState(s, p), out + [p]) && Explained(out + [p])
  {
    AheadOfSucc(out[|out| - 1].seqNo, p.seqNo);
    ExplainedSnoc(out, p);
  }

  lemma {:induction false} InTurnQueue(s: State, p: Packet)
    requires Queue(s, 1) && s.expected == p.seqNo
    ensures Queue(InTurnState(s, p), 0)
    ensures forall k | k in s.pending :: s.pending[k] != p
  {
    forall k | k in s.pending
      ensures Ahead(Succ(p.seqNo), k) < HALF && s.pending[k] != p
    {
      AheadAfterSucc(p.seqNo, k);
    }
  }

  lemma {:induction false} InTurnOnce(s: State, out: seq<Packet>, arrived: seq<Packet>, p: Packet)
    requires Once(s, out, arrived) && Genuine(p, arrived) && p !in out
    requires forall k | k in s.pending :: s.pending[k] != p
    ensures Once(InTurnState(s, p), out + [p], arrived)
  {
    NoDuplicatesSnoc(out, p);
  }

  lemma {:induction false} InTurnKeeps(s: State, out: seq<Packet>, arrived: seq<Packet>, p: Packet)
    requires Good(s, out, arrived) && Genuine(p, arrived) && p !in out && s.ssrc == Some(p.ssrc)
    requires Ahead(s.expected, p.seqNo) == 0
    ensures Good(InTurn(s, p).0, out + InTurn(s, p).1, arrived)
    ensures InTurn(s, p).0.deadline == None && InTurn(s, p).0.candidate == None
  {
    AheadInverse(s.expected, p.seqNo);
    InTurnDelivers(s, out, p);
    InTurnQueue(s, p);
    InTurnOnce(s, out, arrived, p);
    var t := InTurnState(s, p);
    ReleaseKeeps(t, out + [p], arrived);
    Associate(out, [p], Release(t).1);
  }

  lemma {:induction false} QueuedQueue(s: State, p: Packet, now: nat)
    requires Queue(s, 1) && Timely(s, now) && s.ssrc == Some(p.ssrc)
    requires p.at == now && 0 < Ahead(s.expected, p.seqNo) < HALF
    ensures Queue(Queued(s, p, now), 1)
  {
    var t := Queued(s, p, now);
    assert p.seqNo in t.pending;
  }

  lemma {:induction false} QueuedOnce(s: State, out: seq<Packet>, arrived: seq<Packet>, p: Packet, now: nat)
    requires Once(s, out, arrived) && Genuine(p, arrived) && p !in out
    ensures Once(Queued(s, p, now), out, arrived)
  {}

  lemma {:induction false} QueuedKeeps(s: State, out: seq<Packet>, arrived: seq<Packet>, p: Packet, now: nat)
    requires Good(s, out, arrived) && Timely(s, now) && Genuine(p, arrived) && p !in out && s.ssrc == Some(p.ssrc)
    requires p.at == now && 0 < Ahead(s.expected, p.seqNo) < HALF
    ensures Good(Queued(s, p, now), out, arrived)
  {
    QueuedQueue(s, p, now);
    QueuedOnce(s, out, arrived, p, now);
    RemembersSame(s, Queued(s, p, now), out);
  }

  lemma {:induction false} SameSourceKeeps(s: State, out: seq<Packet>, arrived: seq<Packet>, p: Packet, now: nat)
    requires Good(s, out, arrived) && Timely(s, now) && Genuine(p, arrived) && p !in out
    requires s.ssrc == Some(p.ssrc) && p.at == now
    ensures Good(SameSource(s, p, now).0, out + SameSource(s, p, now).1, arrived)
    ensures Timely(SameSource(s, p, now).0, now)
  {
    var d := Ahead(s.expected, p.seqNo);
    if d >= HALF {
      BehindKeeps(s, out, arrived, p, now);
    } else if d == 0 {
      InTurnKeeps(s, out, arrived, p);
    } else {
      var t := Queued(s, p, now);
      QueuedKeeps(s, out, arrived, p, now);
      FlushQueued(t, out, arrived, now);
    }
  }

  /** The flush right after queueing: with no wait allowed it releases at once. */
  lemma {:induction false} FlushQueued(s: State, out: seq<Packet>, arrived: seq<Packet>, now: nat)
    requires Good(s, out, arrived) && s.candidate == None
    requires s.deadline.Some? ==> s.deadline.value <= now + s.maxWait
    ensures Good(Flush(s, now).0, out + Flush(s, now).1, arrived) && Timely(Flush(s, now).0, now)
  {
    if s.deadline.Some? && now >= s.deadline.value {
      GoodRelease(s, out, arrived);
    } else {
      assert out + [] == out;
    }
  }

  lemma {:induction false} FlushFrame(s: State, now: nat)
    ensures Flush(s, now).0.ssrc == s.ssrc && Flush(s, now).0.maxWait == s.maxWait
    ensures Flush(s, now).0.retired == s.retired
  {
    ReleaseIs(Expired(s, now));
  }

  lemma {:induction false} BatchOmits(s: State, p: Packet)
    requires Queue(s, 0) && forall k | k in s.pending :: s.pending[k] != p
    ensures p !in Batch(s.pending, s.expected)
  {
    BatchIsSorted(s);
  }

  lemma {:induction false} FlushOmits(s: State, now: nat, p: Packet)
    requires Queue(s, 0) && forall k | k in s.pending :: s.pending[k] != p
    ensures p !in Flush(s, now).1
  {
    BatchOmits(Expired(s, now), p);
  }

  lemma {:induction false} PushKeeps(s: State, out: seq<Packet>, arrived: seq<Packet>, p: Packet, was: nat, now: nat)
    requires Good(s, out, arrived) && Timely(s, was) && was <= now && p.id == |arrived| && p.at == now
    ensures Good(Push(s, Some(p), now).0, out + Push(s, Some(p), now).1, arrived + [p])
    ensures Timely(Push(s, Some(p), now).0, now)
  {
    if s.ssrc != Some(p.ssrc) && p.ssrc !in s.retired {
      NewSourceKeeps(s, out, arrived, p);
    } else {
      ArrivalIsNew(s, out, arrived, p);
      FlushKeeps(s, out, arrived + [p], was, now);
      if s.ssrc == Some(p.ssrc) {
        var (t, ready) := Flush(s, now);
        FlushFrame(s, now);
        FlushOmits(s, now, p);
        SameSourceKeeps(t, out + ready, arrived + [p], p, now);
        Associate(out, ready, SameSource(t, p, now).1);
      }
    }
  }

  // ----- runs -----------------------------------------------------------

  /** What wakes the buffer: an RTP packet, another datagram, or the receive loop's timer. */
  datatype Heard = Rtp(ssrc: nat, seqNo: Seq16, media: nat) | Other | Wake

  datatype Event = Event(now: nat, heard: Heard)

  /** The buffer, everything that arrived, everything delivered, and the time. */
  datatype Run = Run(s: State, arrived: seq<Packet>, out: seq<Packet>, now: nat)

  function Step(r: Run, e: Event): Run {
    match e.heard
    case Rtp(ssrc, seqNo, media) =>
      var p := Packet(|r.arrived|, e.now, ssrc, seqNo, media);
      var (t, ready) := Push(r.s, Some(p), e.now);
      Run(t, r.arrived + [p], r.out + ready, e.now)
    case Other =>
      var (t, ready) := Push(r.s, None, e.now);
      Run(t, r.arrived, r.out + ready, e.now)
    case Wake =>
      var (t, ready) := Flush(r.s, e.now);
      Run(t, r.arrived, r.out + ready, e.now)
  }

  function Steps(r: Run, es: seq<Event>): Run
    decreases |es|
  {
    if es == [] then r else Steps(Step(r, es[0]), es[1..])
  }

  /** Time does not go back. */
  predicate Forward(now: nat, es: seq<Event>)
    decreases |es|
  {
    es == [] || (now <= es[0].now && Forward(es[0].now, es[1..]))
  }

  ghost predicate Inv(r: Run) { Good(r.s, r.out, r.arrived) && Timely(r.s, r.now) }

  lemma {:induction false} StepKeeps(r: Run, e: Event)
    requires Inv(r) && r.now <= e.now
    ensures Inv(Step(r, e))
  {
    match e.heard
    case Rtp(ssrc, seqNo, media) =>
      PushKeeps(r.s, r.out, r.arrived, Packet(|r.arrived|, e.now, ssrc, seqNo, media), r.now, e.now);
    case _ => FlushKeeps(r.s, r.out, r.arrived, r.now, e.now);
  }

  lemma {:induction false} StepsKeep(r: Run, es: seq<Event>)
    requires Inv(r) && Forward(r.now, es)
    ensures Inv(Steps(r, es))
    decreases |es|
  {
    if es != [] {
      StepKeeps(r, es[0]);
      StepsKeep(Step(r, es[0]), es[1..]);
    }
  }

  function Start(maxWait: nat): Run { Run(New(maxWait), [], [], 0) }

  lemma {:induction false} SameSourceWait(s: State, p: Packet, now: nat)
    ensures SameSource(s, p, now).0.maxWait == s.maxWait
  {
    var d := Ahead(s.expected, p.seqNo);
    if d >= HALF {
      BehindWait(s, p, now);
    } else if d == 0 {
      ReleaseWait(Remember(s.(candidate := None, expected := Succ(p.seqNo)), p));
    } else {
      FlushFrame(Queued(s, p, now), now);
    }
  }

  lemma {:induction false} BehindWait(s: State, p: Packet, now: nat)
    ensures Behind(s, p, now).0.maxWait == s.maxWait
  {}

  lemma {:induction false} ReleaseWait(s: State)
    ensures Release(s).0.maxWait == s.maxWait
  {
    ReleaseIs(s);
  }

  lemma {:induction false} PushWait(s: State, p: Packet, now: nat)
    ensures Push(s, Some(p), now).0.maxWait == s.maxWait
  {
    FlushFrame(s, now);
    if s.ssrc == Some(p.ssrc) { SameSourceWait(Flush(s, now).0, p, now); }
  }

  lemma {:induction false} StepWait(r: Run, e: Event)
    ensures Step(r, e).s.maxWait == r.s.maxWait
  {
    match e.heard
    case Rtp(ssrc, seqNo, media) => PushWait(r.s, Packet(|r.arrived|, e.now, ssrc, seqNo, media), e.now);
    case _ => FlushFrame(r.s, e.now);
  }

  lemma {:induction false} StepsWait(r: Run, es: seq<Event>)
    ensures Steps(r, es).s.maxWait == r.s.maxWait
    decreases |es|
  {
    if es != [] {
      StepWait(r, es[0]);
      StepsWait(Step(r, es[0]), es[1..]);
    }
  }

  /** Whatever arrives, and whenever the timer fires: every delivered packet arrived, unchanged, and is
      delivered once; each starts a source never heard before, continues its source in order, or belongs
      to a confirmed restart; a packet still queued has waited less than the allowed time; and the
      delivery history holds exactly the last 65536 identities delivered from the current source. */
  lemma {:induction false} EveryRunDeliversInOrder(maxWait: nat, es: seq<Event>)
    requires Forward(0, es)
    ensures var r := Steps(Start(maxWait), es);
            && Explained(r.out)
            && NoDuplicates(r.out) && (forall q | q in r.out :: Genuine(q, r.arrived))
            && (forall k | k in r.s.pending ::
                  Genuine(r.s.pending[k], r.arrived) && r.now < r.s.pending[k].at + maxWait)
            && (r.s.ssrc.Some? ==>
                  forall i :: i in r.s.delivered <==> i in Lately(r.out, r.s.ssrc.value))
  {
    var r := Start(maxWait);
    assert Inv(r);
    StepsKeep(r, es);
    StepsWait(r, es);
  }

  // ----- nothing queued is lost -----------------------------------------

  /** `p` confirms the restart its predecessor announced. */
  predicate Confirms(s: State, p: Packet) {
    && s.ssrc == Some(p.ssrc) && Ahead(s.expected, p.seqNo) >= HALF && IdentityOf(p) !in s.delivered
    && s.candidate.Some? && p.seqNo == Succ(s.candidate.value.packet.seqNo)
  }

  lemma {:induction false} FlushLosesNothing(s: State, now: nat, k: Seq16)
    requires k in s.pending
    ensures var (t, ready) := Flush(s, now);
            s.pending[k] in ready || (k in t.pending && t.pending[k] == s.pending[k])
  {
    var t := Expired(s, now);
    BatchIsComplete(t, k);
    ReleaseIs(t);
  }

  lemma {:induction false} SameSourceLosesNothing(s: State, p: Packet, now: nat, k: Seq16)
    requires k in s.pending && s.ssrc == Some(p.ssrc)
    ensures var (t, ready) := SameSource(s, p, now);
            Confirms(s, p) || s.pending[k] in ready || (k in t.pending && t.pending[k] == s.pending[k])
  {
    var d := Ahead(s.expected, p.seqNo);
    if d == 0 {
      var t := Remember(s.(candidate := None, expected := Succ(p.seqNo)), p);
      BatchIsComplete(t, k);
      ReleaseIs(t);
    } else if d < HALF {
      FlushLosesNothing(Queued(s, p, now), now, k);
    }
  }

  /** A queued packet stays queued or is delivered, unless a new source takes over or a restart is
      confirmed: no late, duplicate or foreign packet makes the buffer drop it. */
  lemma {:induction false} QueueLosesNothing(s: State, p: Packet, now: nat, k: Seq16)
    requires k in s.pending
    ensures var (t, ready) := Push(s, Some(p), now);
            || (s.ssrc != Some(p.ssrc) && p.ssrc !in s.retired)
            || Confirms(Flush(s, now).0, p)
            || s.pending[k] in ready || (k in t.pending && t.pending[k] == s.pending[k])
  {
    FlushLosesNothing(s, now, k);
    var (t, ready) := Flush(s, now);
    FlushFrame(s, now);
    if s.ssrc == Some(p.ssrc) && k in t.pending && t.pending[k] == s.pending[k] {
      SameSourceLosesNothing(t, p, now, k);
    }
  }

  // ----- what becomes of a packet ---------------------------------------

  lemma {:induction false} QueuedFate(s: State, p: Packet, now: nat)
    requires s.ssrc == Some(p.ssrc) && 0 < Ahead(s.expected, p.seqNo) < HALF && p.seqNo !in s.pending
    ensures var (t, ready) := SameSource(s, p, now);
            p in ready || (p.seqNo in t.pending && t.pending[p.seqNo] == p)
  {
    FlushLosesNothing(Queued(s, p, now), now, p.seqNo);
  }

  /** A packet of a new source and the expected packet go out at once; one ahead of it goes out or waits,
      unless its number waits already; one behind it goes out exactly when it confirms a restart, right
      after the packet that announced it. */
  lemma {:induction false} PacketFate(s: State, p: Packet, now: nat)
    ensures var (u, ready) := Push(s, Some(p), now);
            var (t, flushed) := Flush(s, now);
            var d := Ahead(t.expected, p.seqNo);
            if s.ssrc != Some(p.ssrc) then
              if p.ssrc in s.retired then (u, ready) == (t, flushed) else ready == [p]
            else
              && (d == 0 ==> flushed + [p] <= ready)
              && (0 < d < HALF && p.seqNo !in t.pending ==>
                    p in ready || (p.seqNo in u.pending && u.pending[p.seqNo] == p))
              && (d >= HALF ==> ready == flushed + if Confirms(t, p) then [t.candidate.value.packet, p] else [])
  {
    var t := Flush(s, now).0;
    FlushFrame(s, now);
    if s.ssrc == Some(p.ssrc) {
      var d := Ahead(t.expected, p.seqNo);
      if 0 < d < HALF && p.seqNo !in t.pending { QueuedFate(t, p, now); }
    }
  }

  lemma {:induction false} Announced(s: State, p: Packet, now: nat)
    requires s.ssrc == Some(p.ssrc) && s.candidate == None && IdentityOf(p) !in s.delivered
    requires Ahead(s.expected, p.seqNo) >= HALF && Ahead(p.seqNo, s.expected) > RECENT
    ensures SameSource(s, p, now).0 == s.(candidate := Some(Candidate(p, now)))
  {}

  lemma {:induction false} Confirmed(s: State, p: Packet, q: Packet, now: nat)
    requires s.ssrc == Some(p.ssrc) == Some(q.ssrc) && q.seqNo == Succ(p.seqNo)
    requires s.candidate.Some? && s.candidate.value.packet == p && now < s.candidate.value.since + CONFIRM
    requires s.deadline.Some? ==> now < s.deadline.value
    requires IdentityOf(q) !in s.delivered && Ahead(s.expected, q.seqNo) >= HALF
    ensures Push(s, Some(q), now).1 == [p, q]
  {
    assert Flush(s, now) == (s, []);
    assert SameSource(s, q, now).1 == [p, q];
    assert [] + [p, q] == [p, q];
  }

  /** A source that restarts far behind is heard again at its second packet: two consecutive packets of
      unheard media, within a second and with no wait running out meanwhile, are both delivered. */
  lemma {:induction false} RestartRecovers(s: State, p: Packet, q: Packet, now: nat, later: nat)
    requires s.ssrc == Some(p.ssrc) == Some(q.ssrc) && q.seqNo == Succ(p.seqNo) && now <= later < now + CONFIRM
    requires s.candidate == None && (s.deadline.Some? ==> later < s.deadline.value)
    requires IdentityOf(p) !in s.delivered && IdentityOf(q) !in s.delivered
    requires Ahead(s.expected, p.seqNo) >= HALF && Ahead(s.expected, q.seqNo) >= HALF
    requires Ahead(p.seqNo, s.expected) > RECENT
    ensures Push(Push(s, Some(p), now).0, Some(q), later).1 == [p, q]
  {
    assert Flush(s, now) == (s, []);
    Announced(s, p, now);
    Confirmed(Push(s, Some(p), now).0, p, q, later);
  }
}
