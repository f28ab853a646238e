/** How `Call::poll_state` learns that a call has ended, against everything PJSIP and other threads may
    do in between: `pjsua-safe/src/call.rs` and the disconnect part of `on_call_state_cb`. */
module PollState {
  import opened Wrappers
  import opened DisconnectLog

  datatype CallState = Null | Calling | Incoming | Early | Connecting | Confirmed | Disconnected

  /** Where PJSIP is with a call: running, marked DISCONNECTED with the state callback still to run,
      or callback done and the slot about to be reset. */
  datatype Phase = Live | Marked | Captured

  /** A PJSUA call slot. `token` is the call's user data, 0 for a call we did not place. */
  datatype Slot = Slot(token: nat, state: CallState, phase: Phase)

  /** A `poll_state` in progress: about to read the call info, about to compare the user data, about
      to look into the log, or finished. `late` notes that the call had already lost its slot when
      the poll began, `recorded` that its disconnect was recorded by then. */
  datatype Pc = Start | GotInfo(seen: CallState) | Matched(seen: CallState) | Done(result: CallState)

  datatype Poll = Poll(callId: nat, token: nat, pc: Pc, late: bool, recorded: bool)

  /** `pending` are tokens handed out to calls not yet placed, `calls` the placed calls' ids by token,
      `history` every disconnect ever recorded. */
  datatype State = State(
    slots: map<nat, Slot>, nextToken: nat, pending: set<nat>, calls: map<nat, nat>,
    log: seq<Entry>, history: seq<Entry>, polls: map<nat, Poll>)

  datatype Action =
    | TakeToken                                   // next_call_token
    | Place(token: nat, id: nat)                  // pjsua_call_make_call succeeds
    | PlaceFails(token: nat)
    | Ring(id: nat)                               // an incoming call takes a free id
    | Progress(id: nat, state: CallState)
    | Mark(id: nat)                               // PJSIP sets DISCONNECTED
    | Callback(id: nat, disconnect: Disconnect)   // on_call_state_cb records it
    | Reset(id: nat)                              // the callback returned; the id is free
    | PollBegin(p: nat, token: nat)
    | PollInfo(p: nat)                            // pjsua_call_get_info
    | PollUserData(p: nat)                        // pjsua_call_get_user_data
    | PollLog(p: nat)                             // disconnect_status

  function Init(): State { State(map[], 1, {}, map[], [], [], map[]) }

  predicate Enabled(s: State, a: Action) {
    match a
    case TakeToken => true
    case Place(t, id) => t in s.pending && id !in s.slots
    case PlaceFails(t) => t in s.pending
    case Ring(id) => id !in s.slots
    case Progress(id, st) => id in s.slots && s.slots[id].phase == Live && st != Disconnected
    case Mark(id) => id in s.slots && s.slots[id].phase == Live
    case Callback(id, _) => id in s.slots && s.slots[id].phase == Marked
    case Reset(id) => id in s.slots && s.slots[id].phase == Captured
    case PollBegin(p, t) => t in s.calls && (p in s.polls ==> s.polls[p].pc.Done?)
    case PollInfo(p) => p in s.polls && s.polls[p].pc.Start?
    case PollUserData(p) => p in s.polls && s.polls[p].pc.GotInfo?
    case PollLog(p) => p in s.polls && s.polls[p].pc.Matched?
  }

  function Next(s: State, a: Action): State
    requires Enabled(s, a)
  {
    match a
    case TakeToken => s.(nextToken := s.nextToken + 1, pending := s.pending + {s.nextToken})
    case Place(t, id) =>
      s.(slots := s.slots[id := Slot(t, Calling, Live)], pending := s.pending - {t}, calls := s.calls[t := id])
    case PlaceFails(t) => s.(pending := s.pending - {t})
    case Ring(id) => s.(slots := s.slots[id := Slot(0, Incoming, Live)])
    case Progress(id, st) => s.(slots := s.slots[id := s.slots[id].(state := st)])
    case Mark(id) => s.(slots := s.slots[id := s.slots[id].(state := Disconnected, phase := Marked)])
    case Callback(id, d) =>
      var captured := s.(slots := s.slots[id := s.slots[id].(phase := Captured)]);
      var t := s.slots[id].token;
      if t == 0 then captured
      else captured.(log := Record(s.log, Entry(t, d)), history := s.history + [Entry(t, d)])
    case Reset(id) => s.(slots := s.slots - {id})
    case PollBegin(p, t) => s.(polls := s.polls[p := Poll(s.calls[t], t, Start, !Holds(s, t), Recorded(s.history, t))])
    case PollInfo(p) =>
      var q := s.polls[p];
      At(s, p, if q.callId in s.slots then GotInfo(s.slots[q.callId].state) else Done(Disconnected))
    case PollUserData(p) =>
      var q := s.polls[p];
      At(s, p, if UserData(s, q.callId) != q.token then Done(Disconnected) else Matched(q.pc.seen))
    case PollLog(p) =>
      var q := s.polls[p];
      At(s, p, if q.pc.seen == Disconnected && q.token != 0 && StatusIn(s.log, q.token) == None
               then Done(Early) else Done(q.pc.seen))
  }

  /** A reset slot has no user data. */
  function UserData(s: State, id: nat): nat { if id in s.slots then s.slots[id].token else 0 }

  function At(s: State, p: nat, pc: Pc): State
    requires p in s.polls
  {
    s.(polls := s.polls[p := s.polls[p].(pc := pc)])
  }

  // ----- runs -----------------------------------------------------------

  predicate Possible(s: State, actions: seq<Action>)
    decreases |actions|
  {
    actions == [] || (Enabled(s, actions[0]) && Possible(Next(s, actions[0]), actions[1..]))
  }

  function After(s: State, actions: seq<Action>): State
    requires Possible(s, actions)
    decreases |actions|
  {
    if actions == [] then s else After(Next(s, actions[0]), actions[1..])
  }

  // ----- what every interleaving keeps ----------------------------------

  predicate Recorded(history: seq<Entry>, t: nat) { exists i :: 0 <= i < |history| && history[i].token == t }

  predicate Holds(s: State, t: nat) { t in s.calls && s.calls[t] in s.slots && s.slots[s.calls[t]].token == t }

  /** Tokens are never 0 and never handed out twice. */
  ghost predicate TokensFresh(s: State) {
    && 0 < s.nextToken
    && (forall t | t in s.pending :: 0 < t < s.nextToken && t !in s.calls)
    && (forall t | t in s.calls :: 0 < t < s.nextToken)
    && (forall id | id in s.slots && s.slots[id].token != 0 ::
          s.slots[id].token in s.calls && s.calls[s.slots[id].token] == id)
    && (forall i | 0 <= i < |s.history| :: s.history[i].token in s.calls)
  }

  /** A placed call is recorded exactly from the callback on: before it, the call still has its slot. */
  ghost predicate CapturedOnce(s: State) {
    && (forall t | t in s.calls :: Recorded(s.history, t) <==> !(Holds(s, t) && s.slots[s.calls[t]].phase != Captured))
    && FreshTokens(s.history)
    && s.log == Recent(s.history)
  }

  /** A poll knows its call; it reports a disconnect only if that is recorded, and a late one reports
      nothing else. */
  predicate PollSound(s: State, q: Poll) {
    && q.token in s.calls && q.callId == s.calls[q.token]
    && (q.pc == Done(Disconnected) ==> Recorded(s.history, q.token))
    && (q.late ==> !Holds(s, q.token) && !q.pc.Matched? && (q.pc.Done? ==> q.pc.result == Disconnected))
  }

  ghost predicate PollsSound(s: State) { forall p | p in s.polls :: PollSound(s, s.polls[p]) }

  ghost predicate Inv(s: State) { TokensFresh(s) && CapturedOnce(s) && PollsSound(s) }

  lemma {:induction false} InitInv()
    ensures Inv(Init())
  {}

  lemma {:induction false} TokenKeeps(s: State, a: Action)
    requires Inv(s) && Enabled(s, a) && (a.TakeToken? || a.PlaceFails?)
    ensures Inv(Next(s, a))
  {}

  lemma {:induction false} PlaceKeeps(s: State, token: nat, id: nat)
    requires Inv(s) && Enabled(s, Place(token, id))
    ensures Inv(Next(s, Place(token, id)))
  {
    var n := Next(s, Place(token, id));
    assert !Recorded(s.history, token);
    forall t | t in s.calls
      ensures t != token && n.calls[t] == s.calls[t] && (Holds(n, t) <==> Holds(s, t))
    {
    }
  }

  lemma {:induction false} RingKeeps(s: State, id: nat)
    requires Inv(s) && Enabled(s, Ring(id))
    ensures Inv(Next(s, Ring(id)))
  {
    var n := Next(s, Ring(id));
    forall t | t in s.calls
      ensures Holds(n, t) <==> Holds(s, t)
    {
    }
  }

  lemma {:induction false} SlotKeeps(s: State, a: Action)
    requires Inv(s) && Enabled(s, a) && (a.Progress? || a.Mark? || a.Reset?)
    ensures Inv(Next(s, a))
  {
    var n := Next(s, a);
  }

  lemma {:induction false} RecordedSnoc(history: seq<Entry>, e: Entry)
    ensures forall t :: Recorded(history + [e], t) <==> Recorded(history, t) || t == e.token
  {
    var all := history + [e];
    forall t
      ensures Recorded(all, t) <==> Recorded(history, t) || t == e.token
    {
      if t == e.token { assert all[|history|].token == t; }
      if Recorded(history, t) {
        var i :| 0 <= i < |history| && history[i].token == t;
        assert all[i].token == t;
      }
    }
  }

  /** The callback of a call we placed finds that call in its slot and not yet recorded. */
  lemma {:induction false} CallbackOfOurs(s: State, id: nat)
    requires Inv(s) && id in s.slots && s.slots[id].phase == Marked && s.slots[id].token != 0
    ensures var t := s.slots[id].token;
            t in s.calls && s.calls[t] == id && Holds(s, t) && !Recorded(s.history, t)
  {}

  lemma {:induction false} CallbackTokens(s: State, id: nat, d: Disconnect)
    requires Inv(s) && Enabled(s, Callback(id, d))
    ensures TokensFresh(Next(s, Callback(id, d)))
  {
    var t := s.slots[id].token;
    if t != 0 { CallbackOfOurs(s, id); }
  }

  lemma {:induction false} CallbackCaptures(s: State, id: nat, d: Disconnect)
    requires Inv(s) && Enabled(s, Callback(id, d))
    ensures CapturedOnce(Next(s, Callback(id, d)))
  {
    var n, t := Next(s, Callback(id, d)), s.slots[id].token;
    if t != 0 {
      CallbackOfOurs(s, id);
      RecordedSnoc(s.history, Entry(t, d));
      assert n.log == Recent(n.history) by { RecentSnoc(s.history, Entry(t, d)); }
      assert FreshTokens(n.history) by { FreshSnoc(s.history, Entry(t, d)); }
    }
  }

  lemma {:induction false} FreshSnoc(history: seq<Entry>, e: Entry)
    requires FreshTokens(history) && !Recorded(history, e.token)
    ensures FreshTokens(history + [e])
  {}

  lemma {:induction false} CallbackPolls(s: State, id: nat, d: Disconnect)
    requires Inv(s) && Enabled(s, Callback(id, d))
    ensures PollsSound(Next(s, Callback(id, d)))
  {
    var n, t := Next(s, Callback(id, d)), s.slots[id].token;
    if t != 0 { RecordedSnoc(s.history, Entry(t, d)); }
  }

  lemma {:induction false} CallbackKeeps(s: State, id: nat, d: Disconnect)
    requires Inv(s) && Enabled(s, Callback(id, d))
    ensures Inv(Next(s, Callback(id, d)))
  {
    CallbackTokens(s, id, d);
    CallbackCaptures(s, id, d);
    CallbackPolls(s, id, d);
  }

  lemma {:induction false} PollStepSound(s: State, a: Action)
    requires Inv(s) && Enabled(s, a) && (a.PollBegin? || a.PollInfo? || a.PollUserData? || a.PollLog?)
    ensures a.p in Next(s, a).polls && PollSound(s, Next(s, a).polls[a.p])
  {
    if a.PollLog? && Next(s, a).polls[a.p].pc == Done(Disconnected) {
      var j := StatusIndex(s.log, s.polls[a.p].token);
      RecentAt(s.history, j);
    }
  }

  lemma {:induction false} SoundPollKeeps(s: State, p: nat, q: Poll)
    requires Inv(s) && PollSound(s, q)
    ensures Inv(s.(polls := s.polls[p := q]))
  {}

  lemma {:induction false} PollKeeps(s: State, a: Action)
    requires Inv(s) && Enabled(s, a) && (a.PollBegin? || a.PollInfo? || a.PollUserData? || a.PollLog?)
    ensures Inv(Next(s, a))
  {
    PollStepSound(s, a);
    var q := Next(s, a).polls[a.p];
    SoundPollKeeps(s, a.p, q);
    assert Next(s, a) == s.(polls := s.polls[a.p := q]);
  }

  lemma {:induction false} StepKeeps(s: State, a: Action)
    requires Inv(s) && Enabled(s, a)
    ensures Inv(Next(s, a))
  {
    match a
    case Callback(id, d) => CallbackKeeps(s, id, d);
    case TakeToken => TokenKeeps(s, a);
    case PlaceFails(_) => TokenKeeps(s, a);
    case Place(token, id) => PlaceKeeps(s, token, id);
    case Ring(id) => RingKeeps(s, id);
    case Progress(_, _) => SlotKeeps(s, a);
    case Mark(_) => SlotKeeps(s, a);
    case Reset(_) => SlotKeeps(s, a);
    case _ => PollKeeps(s, a);
  }

  lemma {:induction false} RunKeeps(s: State, actions: seq<Action>)
    requires Inv(s) && Possible(s, actions)
    ensures Inv(After(s, actions))
    decreases |actions|
  {
    if actions != [] {
      StepKeeps(s, actions[0]);
      RunKeeps(Next(s, actions[0]), actions[1..]);
    }
  }

  /** In every interleaving: a poll that reports `Disconnected` reports a call whose disconnect is
      already recorded, and looking that call's token up gives the call's own, only record as long as
      fewer than 64 disconnects were recorded after it. */
  lemma {:induction false} DisconnectedMeansRecorded(actions: seq<Action>, p: nat)
    requires Possible(Init(), actions)
    requires p in After(Init(), actions).polls && After(Init(), actions).polls[p].pc == Done(Disconnected)
    ensures var s := After(Init(), actions);
            var t := s.polls[p].token;
            && FreshTokens(s.history)
            && exists i | 0 <= i < |s.history| ::
                 && s.history[i].token == t
                 && StatusIn(s.log, t) == if |s.history| - i <= CAPACITY then Some(s.history[i].disconnect) else None
  {
    InitInv();
    RunKeeps(Init(), actions);
    var s := After(Init(), actions);
    var t := s.polls[p].token;
    assert Recorded(s.history, t);
    var i :| 0 <= i < |s.history| && s.history[i].token == t;
    LogIsRecent(s.history);
    LogAgreesWithMap(s.history, i);
  }

  /** A poll that begins after its call is gone reports `Disconnected`, whoever reuses the id meanwhile. */
  lemma {:induction false} LatePollsAreDisconnected(actions: seq<Action>, p: nat)
    requires Possible(Init(), actions) && p in After(Init(), actions).polls
    requires After(Init(), actions).polls[p].late && After(Init(), actions).polls[p].pc.Done?
    ensures After(Init(), actions).polls[p].pc == Done(Disconnected)
  {
    InitInv();
    RunKeeps(Init(), actions);
  }

  // ----- polls begun once the disconnect is recorded --------------------

  /** A call PJSIP has marked reads as disconnected. */
  ghost predicate MarkedDown(s: State) {
    forall id | id in s.slots && s.slots[id].phase != Live :: s.slots[id].state == Disconnected
  }

  /** What a poll begun after the record has read of its own call is the disconnect. */
  predicate SeesTheEnd(s: State, q: Poll) {
    q.recorded ==>
      && Recorded(s.history, q.token)
      && (q.pc.GotInfo? && Holds(s, q.token) ==> q.pc.seen == Disconnected)
      && (q.pc.Matched? ==> q.pc.seen == Disconnected)
  }

  ghost predicate PollsSeeTheEnd(s: State) { forall p | p in s.polls :: SeesTheEnd(s, s.polls[p]) }

  lemma {:induction false} StepMarked(s: State, a: Action)
    requires MarkedDown(s) && Enabled(s, a)
    ensures MarkedDown(Next(s, a))
  {}

  /** A call never gets its slot back, and a record is never lost. */
  lemma {:induction false} OnlyForward(s: State, a: Action, t: nat)
    requires Inv(s) && Enabled(s, a) && t in s.calls
    ensures Holds(Next(s, a), t) ==> Holds(s, t)
    ensures Recorded(s.history, t) ==> Recorded(Next(s, a).history, t)
  {
    if a.Callback? && s.slots[a.id].token != 0 {
      RecordedSnoc(s.history, Entry(s.slots[a.id].token, a.disconnect));
    }
  }

  lemma {:induction false} PollStepSees(s: State, a: Action)
    requires Inv(s) && MarkedDown(s) && PollsSeeTheEnd(s) && Enabled(s, a)
    requires a.PollBegin? || a.PollInfo? || a.PollUserData? || a.PollLog?
    ensures a.p in Next(s, a).polls && SeesTheEnd(s, Next(s, a).polls[a.p])
  {
    if !a.PollBegin? {
      assert SeesTheEnd(s, s.polls[a.p]) && PollSound(s, s.polls[a.p]);
    }
  }

  lemma {:induction false} StepSees(s: State, a: Action)
    requires Inv(s) && MarkedDown(s) && PollsSeeTheEnd(s) && Enabled(s, a)
    ensures PollsSeeTheEnd(Next(s, a))
  {
    var n := Next(s, a);
    forall p | p in n.polls
      ensures SeesTheEnd(n, n.polls[p])
    {
      if (a.PollBegin? || a.PollInfo? || a.PollUserData? || a.PollLog?) && a.p == p {
        PollStepSees(s, a);
      } else {
        assert SeesTheEnd(s, s.polls[p]) && PollSound(s, s.polls[p]);
        OnlyForward(s, a, s.polls[p].token);
      }
    }
  }

  lemma {:induction false} RunSees(s: State, actions: seq<Action>)
    requires Inv(s) && MarkedDown(s) && PollsSeeTheEnd(s) && Possible(s, actions)
    ensures MarkedDown(After(s, actions)) && PollsSeeTheEnd(After(s, actions))
    decreases |actions|
  {
    if actions != [] {
      StepKeeps(s, actions[0]);
      StepMarked(s, actions[0]);
      StepSees(s, actions[0]);
      RunSees(Next(s, actions[0]), actions[1..]);
    }
  }

  /** The look-up at the end of a poll misses the call's record exactly when 64 others followed it. */
  lemma {:induction false} LookupMisses(s: State, t: nat, i: nat)
    requires Inv(s) && i < |s.history| && s.history[i].token == t
    ensures StatusIn(s.log, t) == None <==> |s.history| - i > CAPACITY
  {
    LogIsRecent(s.history);
    LogAgreesWithMap(s.history, i);
  }

  /** Record `i` is the call's, and the poll reported `Disconnected` unless 64 records followed it by the
      time of the look-up. */
  predicate EndsRight(history: seq<Entry>, token: nat, result: CallState, lookup: bool, i: nat) {
    && i < |history| && history[i].token == token
    && (result == Disconnected || result == Early)
    && (result == Early <==> lookup && |history| - i > CAPACITY)
  }

  lemma {:induction false} PollEnds(s: State, a: Action) returns (i: nat)
    requires Inv(s) && Enabled(s, a) && (a.PollInfo? || a.PollUserData? || a.PollLog?)
    requires SeesTheEnd(s, s.polls[a.p]) && s.polls[a.p].recorded && Next(s, a).polls[a.p].pc.Done?
    ensures EndsRight(s.history, s.polls[a.p].token, Next(s, a).polls[a.p].pc.result, a.PollLog?, i)
  {
    i :| 0 <= i < |s.history| && s.history[i].token == s.polls[a.p].token;
    LookupMisses(s, s.polls[a.p].token, i);
    assert PollSound(s, s.polls[a.p]);
  }

  lemma {:induction false} ReachedSees(actions: seq<Action>)
    requires Possible(Init(), actions)
    ensures Inv(After(Init(), actions)) && PollsSeeTheEnd(After(Init(), actions))
  {
    InitInv();
    RunKeeps(Init(), actions);
    RunSees(Init(), actions);
  }

  /** In every interleaving, a poll begun once its call's disconnect is recorded ends in `Disconnected`;
      only if at least 64 disconnects were recorded after the call's own before its look-up does it end
      in `Early`. */
  lemma {:induction false} RecordedPollsEnd(actions: seq<Action>, a: Action)
    requires Possible(Init(), actions) && Enabled(After(Init(), actions), a)
    requires a.PollInfo? || a.PollUserData? || a.PollLog?
    requires After(Init(), actions).polls[a.p].recorded && Next(After(Init(), actions), a).polls[a.p].pc.Done?
    ensures var s := After(Init(), actions);
            exists i :: EndsRight(s.history, s.polls[a.p].token, Next(s, a).polls[a.p].pc.result, a.PollLog?, i)
  {
    ReachedSees(actions);
    var i := PollEnds(After(Init(), actions), a);
  }

  /** A call whose disconnect callback has not run is never reported `Disconnected`, even while PJSIP
      already marks it so. */
  lemma {:induction false} NotBeforeTheCallback(actions: seq<Action>, p: nat)
    requires Possible(Init(), actions) && p in After(Init(), actions).polls
    requires var s := After(Init(), actions);
             Holds(s, s.polls[p].token) && s.slots[s.calls[s.polls[p].token]].phase != Captured
    ensures After(Init(), actions).polls[p].pc != Done(Disconnected)
  {
    InitInv();
    RunKeeps(Init(), actions);
  }
}
