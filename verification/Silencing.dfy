/** Whose streams the quiet-stream protocol of `pjsua-safe/src/passthrough.rs` pauses. */
module Silencing {
  import opened Wrappers
  import opened Passthrough
  import opened CallReuse

  // ----- a stream comes up ----------------------------------------------

  predicate Up(m: Media, id: nat, call: nat, addr: nat, paused: bool) {
    && addr in m.live && m.live[addr] == Stream(id, call, paused, Announced)
    && id in m.streams && m.streams[id] == addr && m.lock == None
  }

  /** Only PJSIP's streams and the threads inside the lock have moved on. */
  ghost predicate Aside(s: State, n: State) {
    && n.calls == s.calls && n.registry == s.registry
    && forall u | u in s.media.tasks && !HoldsLock(s.media.tasks[u]) ::
         u in n.media.tasks && n.media.tasks[u] == s.media.tasks[u]
  }

  lemma {:induction false} StepAside(s: State, a: Action)
    requires Enabled(s, a)
    requires a.PauseDo? || a.Create? || a.CreatedInsert? || a.CreatedCheck? || a.CreatedFinish?
    ensures Aside(s, Next(s, a))
  {}

  function LockStage(m: Media): nat {
    if m.lock == None then 0 else if m.lock.value in m.tasks && m.tasks[m.lock.value].Tracking? then 2 else 1
  }

  lemma {:induction false} LockHolderStep(s: State) returns (a: Action)
    requires Good(s) && s.media.lock != None
    ensures Enabled(s, a) && IsOther(a) && (a.PauseDo? || a.CreatedCheck? || a.CreatedFinish?)
    ensures LockStage(NextMedia(s.media, s.registry, a)) < LockStage(s.media)
  {
    var t := s.media.lock.value;
    var k := s.media.tasks[t];
    a := if k.Tracking? then CreatedCheck(t) else if k.Checked? then CreatedFinish(t) else PauseDo(t);
  }

  /** Whoever holds the lock finishes. */
  lemma {:induction false} Unlock(s: State) returns (later: seq<Action>)
    requires Good(s)
    ensures Possible(s, later) && AllOther(later) && KeepsRun(Everything(), s, later)
    ensures var n := After(s, later); Good(n) && Aside(s, n) && n.media.lock == None
    decreases LockStage(s.media)
  {
    if s.media.lock == None {
      later := [];
    } else {
      var a := LockHolderStep(s);
      StepGood(s, a);
      StepAside(s, a);
      var rest := Unlock(Next(s, a));
      KeepsUnroll(Everything(), s, a, rest);
      later := [a] + rest;
    }
  }

  lemma {:induction false} FinishUp(s: State, t: nat, id: nat, call: nat, addr: nat, paused: bool)
    returns (later: seq<Action>)
    requires Good(s) && t in s.media.tasks && s.media.tasks[t] == Checked(id, addr, paused)
    requires addr in s.media.live && s.media.live[addr] == Stream(id, call, false, Announced)
    ensures Possible(s, later) && AllOther(later) && KeepsRun(Everything(), s, later)
    ensures var n := After(s, later); Good(n) && Aside(s, n) && Up(n.media, id, call, addr, paused)
  {
    StepGood(s, CreatedFinish(t));
    StepAside(s, CreatedFinish(t));
    KeepsUnroll(Everything(), s, CreatedFinish(t), []);
    later := [CreatedFinish(t)] + [];
  }

  lemma {:induction false} CheckUp(s: State, t: nat, id: nat, call: nat, addr: nat)
    returns (later: seq<Action>)
    requires Good(s) && t in s.media.tasks && s.media.tasks[t] == Tracking(id, addr)
    requires addr in s.media.live && s.media.live[addr] == Stream(id, call, false, Announced)
    ensures Possible(s, later) && AllOther(later) && KeepsRun(Everything(), s, later)
    ensures var n := After(s, later); Good(n) && Aside(s, n) && Up(n.media, id, call, addr, id in s.registry)
  {
    var a := CreatedCheck(t);
    StepGood(s, a);
    StepAside(s, a);
    var rest := FinishUp(Next(s, a), t, id, call, addr, id in s.registry);
    KeepsUnroll(Everything(), s, a, rest);
    later := [a] + rest;
  }

  lemma {:induction false} InsertUp(rules: set<Rule>, s: State, t: nat, id: nat, call: nat, addr: nat)
    returns (later: seq<Action>)
    requires Good(s) && t !in s.media.tasks && s.media.lock == None
    requires addr in s.media.live && s.media.live[addr] == Stream(id, call, false, Born)
    requires CallbackInTime in rules ==> HasPhase(s.calls, id, Connected) && s.calls.slots[id].call == call
    ensures Possible(s, later) && AllOther(later) && KeepsRun(rules, s, later)
    ensures var n := After(s, later); Good(n) && Aside(s, n) && Up(n.media, id, call, addr, id in s.registry)
  {
    var a := CreatedInsert(t, addr);
    StepGood(s, a);
    StepAside(s, a);
    var rest := CheckUp(Next(s, a), t, id, call, addr);
    AllRules(rules);
    KeepsFewer(rules, Everything(), Next(s, a), rest);
    KeepsUnroll(rules, s, a, rest);
    later := [a] + rest;
  }

  /** PJSIP brings up a stream for the call that has the id; it is paused if the id has an entry. */
  lemma {:induction false} StreamUp(s: State, id: nat) returns (later: seq<Action>, addr: nat)
    requires Good(s) && HasPhase(s.calls, id, Connected) && s.media.lock == None
    ensures Possible(s, later) && AllOther(later) && KeepsRun(Everything(), s, later)
    ensures var n := After(s, later);
            Good(n) && Aside(s, n) && Up(n.media, id, s.calls.slots[id].call, addr, id in s.registry)
  {
    addr := Fresh(s.media.live.Keys);
    var t := Fresh(s.media.tasks.Keys);
    var a := Create(addr, id, s.calls.slots[id].call);
    StepGood(s, a);
    StepAside(s, a);
    var rest := InsertUp(Everything(), Next(s, a), t, id, s.calls.slots[id].call, addr);
    KeepsUnroll(Everything(), s, a, rest);
    later := [a] + rest;
  }

  lemma {:induction false} Chain(s: State, first: seq<Action>, second: seq<Action>)
    requires Possible(s, first) && Possible(After(s, first), second)
    ensures Possible(s, first + second) && After(s, first + second) == After(After(s, first), second)
    decreases |first|
  {
    if first == [] {
      assert first + second == second;
    } else {
      Chain(Next(s, first[0]), first[1..], second);
      assert (first + second)[1..] == first[1..] + second;
    }
  }

  lemma {:induction false} KeepsChain(rules: set<Rule>, s: State, first: seq<Action>, second: seq<Action>)
    requires Possible(s, first) && Possible(After(s, first), second)
    requires KeepsRun(rules, s, first) && KeepsRun(rules, After(s, first), second)
    ensures Possible(s, first + second) && After(s, first + second) == After(After(s, first), second)
    ensures KeepsRun(rules, s, first + second)
    decreases |first|
  {
    Chain(s, first, second);
    if first == [] {
      assert first + second == second;
    } else {
      KeepsChain(rules, Next(s, first[0]), first[1..], second);
      assert (first + second)[1..] == first[1..] + second;
    }
  }

  // ----- the next call silenced -----------------------------------------

  /** The id of an ended call goes to another one whose stream comes up, paused if the id has an entry. */
  lemma {:induction false} NextCallComesUp(s: State, id: nat, owner: nat)
    returns (later: seq<Action>, call: nat, addr: nat)
    requires Good(s) && owner in s.calls.ended
    ensures Possible(s, later) && AllOther(later) && KeepsRun(Everything(), s, later)
    ensures var n := After(s, later);
            && Good(n) && SameRegistrations(s, n) && n.calls.ended == s.calls.ended
            && id in n.calls.slots && n.calls.slots[id].call == call != owner
            && Up(n.media, id, call, addr, id in s.registry)
  {
    var first := IdPassesOn(s, id);
    var s1 := After(s, first);
    var second := Unlock(s1);
    var s2 := After(s1, second);
    var third;
    third, addr := StreamUp(s2, id);
    KeepsChain(Everything(), s1, second, third);
    KeepsChain(Everything(), s, first, second + third);
    call := s1.calls.slots[id].call;
    later := first + (second + third);
  }

  predicate NobodyAsked(run: seq<Action>, call: nat) {
    forall k | 0 <= k < |run| && IsRegistration(run[k]) :: run[k].owner != call
  }

  lemma {:induction false} OthersAskNothing(actions: seq<Action>, call: nat)
    requires AllOther(actions)
    ensures NobodyAsked(actions, call)
  {}

  lemma {:induction false} AskedTogether(first: seq<Action>, second: seq<Action>, call: nat)
    requires NobodyAsked(first, call) && NobodyAsked(second, call)
    ensures NobodyAsked(first + second, call)
  {}

  lemma {:induction false} OneStep(s: State, a: Action)
    requires Enabled(s, a)
    ensures Possible(s, [a]) && After(s, [a]) == Next(s, a)
    ensures forall rules | KeepsAll(rules, s, a) :: KeepsRun(rules, s, [a])
  {
    Unroll(s, a, []);
    assert [a] + [] == [a];
  }

  /** Whoever registers for a call whose disconnect has run may silence the next call with the id: it
      inherits the entry, and its stream comes up paused. */
  lemma {:induction false} LateRegistrationSilences(s: State, a: Action, id: nat, owner: nat)
    returns (later: seq<Action>, call: nat, addr: nat)
    requires Good(s) && Enabled(s, a) && Registers(a, id, owner) && owner in s.calls.ended
    ensures Possible(Next(s, a), later) && AllOther(later) && KeepsRun(Everything(), Next(s, a), later)
    ensures var n := After(Next(s, a), later);
            && call != owner && Inherits(n, id) && n.calls.slots[id].call == call
            && Up(n.media, id, call, addr, true)
  {
    StepGood(s, a);
    later, call, addr := NextCallComesUp(Next(s, a), id, owner);
  }

  lemma {:induction false} PauseUp(s: State, t: nat, id: nat, owner: nat, call: nat, addr: nat)
    requires t in s.media.tasks && s.media.tasks[t] == Registering(id, owner) && Up(s.media, id, call, addr, false)
    ensures var run := [PauseLookup(t)] + [PauseDo(t)];
            && Possible(s, run) && KeepsRun(Everything(), s, run) && Up(After(s, run).media, id, call, addr, true)
            && After(s, run).registry == s.registry && After(s, run).calls == s.calls
  {
    var n := Next(s, PauseLookup(t));
    OneStep(n, PauseDo(t));
    KeepsUnroll(Everything(), s, PauseLookup(t), [PauseDo(t)]);
  }

  /** A registration made in time whose look-up comes after its call's disconnect may silence the next
      call with the id, which has no entry at all. */
  lemma {:induction false} LatePauseSilences(s: State, t: nat, id: nat, owner: nat)
    returns (later: seq<Action>, call: nat, addr: nat)
    requires Good(s) && owner in s.calls.ended && id !in s.registry
    requires t in s.media.tasks && s.media.tasks[t] == Registering(id, owner)
    ensures Possible(s, later) && AllOther(later) && KeepsRun(Everything(), s, later)
    ensures var n := After(s, later);
            && call != owner && id !in n.registry && id in n.calls.slots && n.calls.slots[id].call == call
            && Up(n.media, id, call, addr, true)
  {
    var first;
    first, call, addr := NextCallComesUp(s, id, owner);
    var second := [PauseLookup(t)] + [PauseDo(t)];
    PauseUp(After(s, first), t, id, owner, call, addr);
    KeepsChain(Everything(), s, first, second);
    later := first + second;
  }

  /** Call 1 takes id 7. */
  lemma {:induction false} FirstCall()
    ensures var run := [Begin(7, 1)];
            && Possible(Init(), run) && KeepsRun(Everything(), Init(), run) && Good(After(Init(), run))
            && After(Init(), run) == State(Calls(map[7 := Slot(1, Connected)], map[1 := 7], {}), map[], Init().media)
  {
    InitGood();
    StepGood(Init(), Begin(7, 1));
    OneStep(Init(), Begin(7, 1));
  }

  /** ... and its disconnect runs, after its owner registered it or not. */
  lemma {:induction false} FirstCallEnds()
    ensures var run := [Begin(7, 1)] + [DisconnectEntry(1, 7)];
            && Possible(Init(), run) && KeepsRun(Everything(), Init(), run) && Good(After(Init(), run))
            && var s := After(Init(), run); 1 in s.calls.ended && s.calls.idOf == map[1 := 7] && 2 !in s.media.tasks
  {
    FirstCall();
    var s := After(Init(), [Begin(7, 1)]);
    StepGood(s, DisconnectEntry(1, 7));
    OneStep(s, DisconnectEntry(1, 7));
    KeepsChain(Everything(), Init(), [Begin(7, 1)], [DisconnectEntry(1, 7)]);
  }

  lemma {:induction false} QuietCall()
    ensures var run := [Begin(7, 1)] + [RegisterQuiet(2, 7, 1)];
            && Possible(Init(), run) && KeepsRun(Everything(), Init(), run) && Good(After(Init(), run))
            && var s := After(Init(), run);
               s.calls.slots == map[7 := Slot(1, Connected)] && s.media.tasks == map[2 := Registering(7, 1)]
  {
    FirstCall();
    var s, a := After(Init(), [Begin(7, 1)]), RegisterQuiet(2, 7, 1);
    StepGood(s, a);
    OneStep(s, a);
    KeepsChain(Everything(), Init(), [Begin(7, 1)], [a]);
  }

  lemma {:induction false} QuietCallEnds()
    ensures var run := [Begin(7, 1)] + [RegisterQuiet(2, 7, 1)] + [DisconnectEntry(1, 7)];
            && Possible(Init(), run) && KeepsRun({RegisterInTime, CallbackInTime}, Init(), run)
            && Good(After(Init(), run))
            && var s := After(Init(), run);
               && 1 in s.calls.ended && 7 !in s.registry
               && 2 in s.media.tasks && s.media.tasks[2] == Registering(7, 1)
  {
    QuietCall();
    var first := [Begin(7, 1)] + [RegisterQuiet(2, 7, 1)];
    var s := After(Init(), first);
    StepGood(s, DisconnectEntry(1, 7));
    OneStep(s, DisconnectEntry(1, 7));
    KeepsFewer({RegisterInTime, CallbackInTime}, Everything(), Init(), first);
    KeepsChain({RegisterInTime, CallbackInTime}, Init(), first, [DisconnectEntry(1, 7)]);
  }

  /** A run from the start in which the owner of call 1 registers it while its disconnect runs, all else is
      in time, and another call, for which nobody registers, is silenced. */
  lemma {:induction false} LateRegistrationIsInherited() returns (run: seq<Action>, call: nat, addr: nat)
    ensures Possible(Init(), run) && KeepsRun({LookUpInTime, CallbackInTime}, Init(), run) && NobodyAsked(run, call)
    ensures var s := After(Init(), run);
            Inherits(s, 7) && s.calls.slots[7].call == call && Up(s.media, 7, call, addr, true)
  {
    FirstCallEnds();
    var rules := {LookUpInTime, CallbackInTime};
    var first, a := [Begin(7, 1)] + [DisconnectEntry(1, 7)], RegisterQuiet(2, 7, 1);
    var s := After(Init(), first);
    var later;
    later, call, addr := LateRegistrationSilences(s, a, 7, 1);
    KeepsFewer(rules, Everything(), Next(s, a), later);
    KeepsUnroll(rules, s, a, later);
    KeepsFewer(rules, Everything(), Init(), first);
    KeepsChain(rules, Init(), first, [a] + later);
    OthersAskNothing(later, call);
    AskedTogether([a], later, call);
    AskedTogether(first, [a] + later, call);
    run := first + ([a] + later);
  }

  /** The same with a registration in time and a late look-up. */
  lemma {:induction false} LatePauseHitsTheNextCall() returns (run: seq<Action>, call: nat, addr: nat)
    ensures Possible(Init(), run) && KeepsRun({RegisterInTime, CallbackInTime}, Init(), run) && NobodyAsked(run, call)
    ensures var s := After(Init(), run);
            && 7 !in s.registry && 7 in s.calls.slots && s.calls.slots[7].call == call
            && Up(s.media, 7, call, addr, true)
  {
    QuietCallEnds();
    var rules := {RegisterInTime, CallbackInTime};
    var first := [Begin(7, 1)] + [RegisterQuiet(2, 7, 1)] + [DisconnectEntry(1, 7)];
    var later;
    later, call, addr := LatePauseSilences(After(Init(), first), 2, 7, 1);
    KeepsFewer(rules, Everything(), After(Init(), first), later);
    KeepsChain(rules, Init(), first, later);
    OthersAskNothing(later, call);
    AskedTogether(first, later, call);
    run := first + later;
  }

  /** A freed id goes to another call. */
  lemma {:induction false} IdRenewed(s: State, id: nat, call: nat)
    requires Good(s) && HasPhase(s.calls, id, Ended) && call !in s.calls.idOf
    ensures var run := [Release(id)] + [Begin(id, call)];
            && Possible(s, run) && KeepsRun(Everything(), s, run)
            && var n := After(s, run);
               && Good(n) && n.media == s.media && n.calls.ended == s.calls.ended
               && call in n.calls.idOf && n.calls.idOf[call] == id
  {
    var s1 := Next(s, Release(id));
    StepGood(s, Release(id));
    StepGood(s1, Begin(id, call));
    OneStep(s1, Begin(id, call));
    KeepsUnroll(Everything(), s, Release(id), [Begin(id, call)]);
  }

  /** The disconnect of the call with the id finishes and another call gets the id. */
  lemma {:induction false} CallReplaced(s: State, t: nat, id: nat, call: nat)
    requires Good(s) && s.media.lock == None && HasPhase(s.calls, id, Ending) && call !in s.calls.idOf
    requires t in s.media.tasks && s.media.tasks[t] == Disconnecting(id)
    ensures var run := [DisconnectStream(t, id)] + ([Release(id)] + [Begin(id, call)]);
            && Possible(s, run) && KeepsRun(Everything(), s, run)
            && var n := After(s, run);
               && Good(n) && n.calls.ended == s.calls.ended && call in n.calls.idOf && n.calls.idOf[call] == id
               && n.media.live == s.media.live && n.media.lock == None
  {
    StepGood(s, DisconnectStream(t, id));
    IdRenewed(Next(s, DisconnectStream(t, id)), id, call);
    KeepsUnroll(Everything(), s, DisconnectStream(t, id), [Release(id)] + [Begin(id, call)]);
  }

  lemma {:induction false} FirstCallHasAStream()
    ensures var run := [Begin(7, 1)] + [Create(0, 7, 1)];
            && Possible(Init(), run) && KeepsRun(Everything(), Init(), run) && Good(After(Init(), run))
            && After(Init(), run)
               == State(Calls(map[7 := Slot(1, Connected)], map[1 := 7], {}), map[],
                        Media(map[], map[0 := Stream(7, 1, false, Born)], None, map[], false))
  {
    FirstCall();
    var s := After(Init(), [Begin(7, 1)]);
    StepGood(s, Create(0, 7, 1));
    OneStep(s, Create(0, 7, 1));
    KeepsChain(Everything(), Init(), [Begin(7, 1)], [Create(0, 7, 1)]);
  }

  /** Call 1 ends with a stream whose created-callback has not run. */
  lemma {:induction false} FirstCallEndsUnannounced()
    ensures var run := [Begin(7, 1)] + [Create(0, 7, 1)] + [DisconnectEntry(1, 7)];
            && Possible(Init(), run) && KeepsRun(Everything(), Init(), run) && Good(After(Init(), run))
            && var s := After(Init(), run);
               && HasPhase(s.calls, 7, Ending) && s.calls.idOf == map[1 := 7] && s.calls.ended == {1}
               && s.media.live == map[0 := Stream(7, 1, false, Born)] && s.media.lock == None
               && s.media.tasks == map[1 := Disconnecting(7)]
  {
    FirstCallHasAStream();
    var first := [Begin(7, 1)] + [Create(0, 7, 1)];
    var s := After(Init(), first);
    StepGood(s, DisconnectEntry(1, 7));
    OneStep(s, DisconnectEntry(1, 7));
    KeepsChain(Everything(), Init(), first, [DisconnectEntry(1, 7)]);
  }

  /** A call is registered while a created-callback for another call with its id is still to come: that
      other call's stream comes up paused. */
  lemma {:induction false} LateCallbackSilences(s: State, id: nat, owner: nat, call: nat, addr: nat)
    returns (later: seq<Action>)
    requires Good(s) && s.media.lock == None && owner in s.calls.idOf && s.calls.idOf[owner] == id
    requires owner !in s.calls.ended && owner != call
    requires addr in s.media.live && s.media.live[addr] == Stream(id, call, false, Born)
    ensures Possible(s, later) && KeepsRun({RegisterInTime, LookUpInTime}, s, later) && NobodyAsked(later, call)
    ensures Up(After(s, later).media, id, call, addr, true)
  {
    var rules := {RegisterInTime, LookUpInTime};
    var a := RegisterForward(id, owner);
    StepGood(s, a);
    var t := Fresh(s.media.tasks.Keys);
    var rest := InsertUp(rules, Next(s, a), t, id, call, addr);
    KeepsUnroll(rules, s, a, rest);
    OthersAskNothing(rest, call);
    AskedTogether([a], rest, call);
    later := [a] + rest;
  }

  lemma {:induction false} NothingAsked(first: seq<Action>, second: seq<Action>)
    requires first == [Begin(7, 1)] + [Create(0, 7, 1)] + [DisconnectEntry(1, 7)]
    requires second == [DisconnectStream(1, 7)] + ([Release(7)] + [Begin(7, 2)])
    ensures NobodyAsked(first + second, 1)
  {
    AskedTogether(first, second, 1);
  }

  /** ... and call 2 gets its id. */
  lemma {:induction false} SecondCall() returns (run: seq<Action>)
    ensures Possible(Init(), run) && KeepsRun(Everything(), Init(), run) && NobodyAsked(run, 1)
    ensures var s := After(Init(), run);
            && Good(s) && s.calls.ended == {1} && 2 in s.calls.idOf && s.calls.idOf[2] == 7
            && s.media.live == map[0 := Stream(7, 1, false, Born)] && s.media.lock == None
  {
    FirstCallEndsUnannounced();
    var first := [Begin(7, 1)] + [Create(0, 7, 1)] + [DisconnectEntry(1, 7)];
    var second := [DisconnectStream(1, 7)] + ([Release(7)] + [Begin(7, 2)]);
    CallReplaced(After(Init(), first), 1, 7, 2);
    KeepsChain(Everything(), Init(), first, second);
    NothingAsked(first, second);
    run := first + second;
  }

  /** A run from the start in which every registration and look-up is in time and one created-callback is
      not: the stream of call 1, which nobody registers, is silenced. */
  lemma {:induction false} LateCallbackHitsTheEndedCall() returns (run: seq<Action>)
    ensures Possible(Init(), run) && KeepsRun({RegisterInTime, LookUpInTime}, Init(), run) && NobodyAsked(run, 1)
    ensures Up(After(Init(), run).media, 7, 1, 0, true)
  {
    var rules := {RegisterInTime, LookUpInTime};
    var first := SecondCall();
    var later := LateCallbackSilences(After(Init(), first), 7, 2, 1, 0);
    KeepsFewer(rules, Everything(), Init(), first);
    KeepsChain(rules, Init(), first, later);
    AskedTogether(first, later, 1);
    run := first + later;
  }

  // ----- who is silenced when the rules are kept ------------------------

  /** The calls somebody registered. */
  function Askers(actions: seq<Action>): set<nat> {
    if actions == [] then {}
    else (if IsRegistration(actions[0]) then {actions[0].owner} else {}) + Askers(actions[1..])
  }

  ghost predicate PausedAsked(m: Media, asked: set<nat>) {
    forall addr | addr in m.live && m.live[addr].paused :: m.live[addr].owner in asked
  }

  ghost predicate EntriesAsked(c: Calls, r: Registry, asked: set<nat>) {
    forall id | id in r :: r[id].owner in asked && r[id].owner !in c.ended
  }

  ghost predicate TrackedCurrent(c: Calls, m: Media) {
    forall id | id in m.streams && m.streams[id] in m.live :: Current(c, m.live[m.streams[id]])
  }

  /** Whatever a thread may still pause belongs to a registered call. */
  predicate TaskAsked(c: Calls, m: Media, k: Task, asked: set<nat>) {
    match k
    case Registering(_, owner) => owner in asked && owner !in c.ended
    case Pausing(id, found) => found.Some? && found.value in m.live ==> m.live[found.value].owner in asked
    case Checked(_, addr, registered) => registered && addr in m.live ==> m.live[addr].owner in asked
    case _ => true
  }

  ghost predicate TasksAsked(c: Calls, m: Media, asked: set<nat>) {
    forall t | t in m.tasks :: TaskAsked(c, m, m.tasks[t], asked)
  }

  ghost predicate Asked(s: State, asked: set<nat>) {
    && PausedAsked(s.media, asked) && EntriesAsked(s.calls, s.registry, asked)
    && TrackedCurrent(s.calls, s.media) && TasksAsked(s.calls, s.media, asked)
  }

  function Added(a: Action, asked: set<nat>): set<nat> { if IsRegistration(a) then asked + {a.owner} else asked }

  lemma {:induction false} StepPaused(s: State, a: Action, asked: set<nat>)
    requires Good(s) && Enabled(s, a) && Asked(s, asked)
    ensures PausedAsked(Next(s, a).media, Added(a, asked))
  {
    if a.PauseDo? || a.CreatedFinish? {
      assert TaskAsked(s.calls, s.media, s.media.tasks[a.t], asked);
    }
  }

  lemma {:induction false} StepEntries(s: State, a: Action, asked: set<nat>)
    requires Good(s) && Enabled(s, a) && KeepsAll(Everything(), s, a) && Asked(s, asked)
    ensures EntriesAsked(Next(s, a).calls, Next(s, a).registry, Added(a, asked))
  {}

  predicate IsCallStep(a: Action) { a.Begin? || a.DisconnectEntry? || a.DisconnectStream? || a.Release? }

  lemma {:induction false} CallTracked(s: State, a: Action)
    requires Good(s) && Enabled(s, a) && TrackedCurrent(s.calls, s.media) && IsCallStep(a)
    ensures TrackedCurrent(Next(s, a).calls, Next(s, a).media)
  {}

  lemma {:induction false} StreamTracked(s: State, a: Action)
    requires Good(s) && Enabled(s, a) && Keeps(CallbackInTime, s, a) && TrackedCurrent(s.calls, s.media)
    requires !IsCallStep(a)
    ensures TrackedCurrent(s.calls, NextMedia(s.media, s.registry, a))
  {}

  lemma {:induction false} StepTracked(s: State, a: Action)
    requires Good(s) && Enabled(s, a) && Keeps(CallbackInTime, s, a) && TrackedCurrent(s.calls, s.media)
    ensures TrackedCurrent(Next(s, a).calls, Next(s, a).media)
  {
    if IsCallStep(a) { CallTracked(s, a); } else { StreamTracked(s, a); }
  }

  lemma {:induction false} CallTasks(s: State, a: Action, asked: set<nat>)
    requires Good(s) && Enabled(s, a) && KeepsAll(Everything(), s, a) && Asked(s, asked) && IsCallStep(a)
    ensures TasksAsked(Next(s, a).calls, Next(s, a).media, asked)
  {
    var n := Next(s, a);
    forall t | t in n.media.tasks
      ensures TaskAsked(n.calls, n.media, n.media.tasks[t], asked)
    {
      if t in s.media.tasks { assert TaskAsked(s.calls, s.media, s.media.tasks[t], asked); }
    }
  }

  /** The created-callback finds an entry only if its own stream's call was registered. */
  lemma {:induction false} CheckTasks(s: State, t: nat, asked: set<nat>)
    requires Good(s) && Enabled(s, CreatedCheck(t)) && Asked(s, asked)
    ensures TasksAsked(s.calls, NextMedia(s.media, s.registry, CreatedCheck(t)), asked)
  {
    var k := s.media.tasks[t];
    if k.id in s.registry {
      assert s.calls.slots[k.id].call == s.registry[k.id].owner;
    }
  }

  /** A look-up finds only a stream of the call being registered. */
  lemma {:induction false} LookupTasks(s: State, t: nat, asked: set<nat>)
    requires Good(s) && Enabled(s, PauseLookup(t)) && Asked(s, asked)
    ensures TasksAsked(s.calls, NextMedia(s.media, s.registry, PauseLookup(t)), asked)
  {
    assert TaskAsked(s.calls, s.media, s.media.tasks[t], asked);
  }

  lemma {:induction false} PauseTasks(s: State, a: Action, asked: set<nat>)
    requires Good(s) && Enabled(s, a) && Asked(s, asked) && (a.PauseDo? || a.CreatedFinish?)
    ensures TasksAsked(s.calls, NextMedia(s.media, s.registry, a), asked)
  {}

  lemma {:induction false} OtherTasks(s: State, a: Action, asked: set<nat>)
    requires Good(s) && Enabled(s, a) && KeepsAll(Everything(), s, a) && Asked(s, asked) && !IsCallStep(a)
    requires !a.CreatedCheck? && !a.PauseLookup? && !a.PauseDo? && !a.CreatedFinish?
    ensures TasksAsked(s.calls, NextMedia(s.media, s.registry, a), Added(a, asked))
  {
    var n := NextMedia(s.media, s.registry, a);
    forall t | t in n.tasks
      ensures TaskAsked(s.calls, n, n.tasks[t], Added(a, asked))
    {
      if t in s.media.tasks { assert TaskAsked(s.calls, s.media, s.media.tasks[t], asked); }
    }
  }

  lemma {:induction false} StepTasks(s: State, a: Action, asked: set<nat>)
    requires Good(s) && Enabled(s, a) && KeepsAll(Everything(), s, a) && Asked(s, asked)
    ensures TasksAsked(Next(s, a).calls, Next(s, a).media, Added(a, asked))
  {
    if IsCallStep(a) {
      CallTasks(s, a, asked);
    } else if a.CreatedCheck? {
      CheckTasks(s, a.t, asked);
    } else if a.PauseLookup? {
      LookupTasks(s, a.t, asked);
    } else if a.PauseDo? || a.CreatedFinish? {
      PauseTasks(s, a, asked);
    } else {
      OtherTasks(s, a, asked);
    }
  }

  lemma {:induction false} RunAsked(s: State, actions: seq<Action>, asked: set<nat>)
    requires Good(s) && Possible(s, actions) && KeepsRun(Everything(), s, actions) && Asked(s, asked)
    ensures Asked(After(s, actions), asked + Askers(actions))
    decreases |actions|
  {
    if actions == [] {
      assert asked + Askers(actions) == asked;
    } else {
      var a := actions[0];
      StepGood(s, a);
      StepPaused(s, a, asked);
      StepEntries(s, a, asked);
      StepTracked(s, a);
      StepTasks(s, a, asked);
      RunAsked(Next(s, a), actions[1..], Added(a, asked));
      assert asked + Askers(actions) == Added(a, asked) + Askers(actions[1..]);
    }
  }

  /** Only streams of calls somebody registered are paused. */
  ghost predicate SilencesOnlyAsked(actions: seq<Action>)
    requires Possible(Init(), actions)
  {
    PausedAsked(After(Init(), actions).media, Askers(actions))
  }

  lemma {:induction false} RulesSuffice(actions: seq<Action>)
    requires Possible(Init(), actions) && KeepsRun(Everything(), Init(), actions)
    ensures SilencesOnlyAsked(actions)
  {
    InitGood();
    RunAsked(Init(), actions, {});
    assert {} + Askers(actions) == Askers(actions);
  }

  lemma {:induction false} NotAnAsker(run: seq<Action>, call: nat)
    requires NobodyAsked(run, call)
    ensures call !in Askers(run)
  {
    if run != [] {
      assert NobodyAsked(run[1..], call);
      NotAnAsker(run[1..], call);
    }
  }

  /** Without one of the rules, a run keeps to the others and silences a call nobody registered. */
  lemma {:induction false} EachRuleIsNeeded(missing: Rule) returns (run: seq<Action>)
    ensures Possible(Init(), run) && KeepsRun(Everything() - {missing}, Init(), run) && !SilencesOnlyAsked(run)
  {
    var call, addr;
    match missing {
      case RegisterInTime =>
        run, call, addr := LateRegistrationIsInherited();
        assert Everything() - {missing} == {LookUpInTime, CallbackInTime};
      case LookUpInTime =>
        run, call, addr := LatePauseHitsTheNextCall();
        assert Everything() - {missing} == {RegisterInTime, CallbackInTime};
      case CallbackInTime =>
        run := LateCallbackHitsTheEndedCall();
        call, addr := 1, 0;
        assert Everything() - {missing} == {RegisterInTime, LookUpInTime};
    }
    NotAnAsker(run, call);
    assert After(Init(), run).media.live[addr].owner == call;
  }

  /** Only registered calls are silenced in every run that keeps to some of the rules if and only if those
      are all three. */
  lemma {:induction false} OnlyRegisteredCallsAreSilenced(rules: set<Rule>)
    ensures rules == Everything() <==>
              forall actions | Possible(Init(), actions) && KeepsRun(rules, Init(), actions) ::
                SilencesOnlyAsked(actions)
  {
    if rules == Everything() {
      forall actions | Possible(Init(), actions) && KeepsRun(rules, Init(), actions)
        ensures SilencesOnlyAsked(actions)
      {
        RulesSuffice(actions);
      }
    } else {
      AllRules(rules);
      var missing :| missing in Everything() && missing !in rules;
      var run := EachRuleIsNeeded(missing);
      KeepsFewer(rules, Everything() - {missing}, Init(), run);
    }
  }

  // ----- when a look-up is safe -----------------------------------------

  /** The registration of thread `t` has still to look its stream up, the lock is free, and the disconnect
      of its call has not run since `s`. */
  predicate AboutToLookUp(s: State, n: State, t: nat)
    requires t in s.media.tasks && s.media.tasks[t].Registering?
  {
    && t in n.media.tasks && n.media.tasks[t] == s.media.tasks[t] && n.media.lock == None
    && (s.media.tasks[t].owner in n.calls.ended ==> s.media.tasks[t].owner in s.calls.ended)
  }

  /** The stream tracked under the id, if any, is the call's. */
  predicate FindsOwn(m: Media, id: nat, owner: nat) {
    id in m.streams && m.streams[id] in m.live ==> m.live[m.streams[id]].owner == owner
  }

  lemma {:induction false} RunTracked(s: State, actions: seq<Action>)
    requires Good(s) && Possible(s, actions) && KeepsRun({CallbackInTime}, s, actions)
    requires TrackedCurrent(s.calls, s.media)
    ensures Good(After(s, actions)) && TrackedCurrent(After(s, actions).calls, After(s, actions).media)
    decreases |actions|
  {
    if actions != [] {
      var a := actions[0];
      assert Keeps(CallbackInTime, s, a);
      StepGood(s, a);
      StepTracked(s, a);
      RunTracked(Next(s, a), actions[1..]);
    }
  }

  /** The look-up of a registration finds a stream of its own call, whatever happens before it short of
      that call's disconnect, if and only if that disconnect has not run already. */
  lemma {:induction false} LookUpIsSafeExactly(s: State, t: nat)
    requires Good(s) && TrackedCurrent(s.calls, s.media)
    requires t in s.media.tasks && s.media.tasks[t].Registering?
    ensures var k := s.media.tasks[t];
            k.owner !in s.calls.ended <==>
              forall later | Possible(s, later) && KeepsRun({CallbackInTime}, s, later)
                             && AboutToLookUp(s, After(s, later), t) ::
                FindsOwn(After(s, later).media, k.id, k.owner)
  {
    var k := s.media.tasks[t];
    if k.owner !in s.calls.ended {
      forall later | Possible(s, later) && KeepsRun({CallbackInTime}, s, later)
                     && AboutToLookUp(s, After(s, later), t)
        ensures FindsOwn(After(s, later).media, k.id, k.owner)
      {
        RunTracked(s, later);
        OwnLookUp(After(s, later), t);
      }
    } else {
      var later, call, addr := NextCallComesUp(s, k.id, k.owner);
      KeepsFewer({CallbackInTime}, Everything(), s, later);
      assert AboutToLookUp(s, After(s, later), t) && !FindsOwn(After(s, later).media, k.id, k.owner);
    }
  }

  lemma {:induction false} OwnLookUp(s: State, t: nat)
    requires Good(s) && TrackedCurrent(s.calls, s.media)
    requires t in s.media.tasks && s.media.tasks[t].Registering? && s.media.tasks[t].owner !in s.calls.ended
    ensures FindsOwn(s.media, s.media.tasks[t].id, s.media.tasks[t].owner)
  {}

  // ----- every stream of a quiet call -----------------------------------

  /** PJSIP has one stream up per call id at a time. */
  predicate OneUp(s: State, a: Action)
    requires Enabled(s, a)
  {
    a.CreatedInsert? ==>
      forall addr | addr in s.media.live && addr != a.addr && s.media.live[addr].id == s.media.live[a.addr].id ::
        s.media.live[addr].life != Announced
  }

  predicate OneUpRun(s: State, actions: seq<Action>)
    requires Possible(s, actions)
    decreases |actions|
  {
    actions == [] || (OneUp(s, actions[0]) && OneUpRun(Next(s, actions[0]), actions[1..]))
  }

  /** The stream belongs to the call that has the id, whose disconnect has not run. */
  predicate OfConnected(c: Calls, x: Stream) { HasPhase(c, x.id, Connected) && c.slots[x.id].call == x.owner }

  /** Every announced stream of a connected call is the one tracked under its id. */
  ghost predicate AllTracked(c: Calls, m: Media) {
    && (forall addr | addr in m.live :: m.live[addr].owner in c.idOf)
    && forall addr | addr in m.live && m.live[addr].life == Announced && OfConnected(c, m.live[addr]) ::
         m.live[addr].id in m.streams && m.streams[m.live[addr].id] == addr
  }

  lemma {:induction false} CallAllTracked(s: State, a: Action)
    requires Good(s) && Enabled(s, a) && AllTracked(s.calls, s.media) && IsCallStep(a)
    ensures AllTracked(Next(s, a).calls, Next(s, a).media)
  {
    var n := Next(s, a);
    forall addr | addr in n.media.live && n.media.live[addr].life == Announced
                  && OfConnected(n.calls, n.media.live[addr])
      ensures OfConnected(s.calls, s.media.live[addr])
    {
    }
  }

  lemma {:induction false} InsertAllTracked(s: State, t: nat, addr: nat)
    requires Good(s) && Enabled(s, CreatedInsert(t, addr)) && AllTracked(s.calls, s.media)
    requires OneUp(s, CreatedInsert(t, addr))
    ensures AllTracked(s.calls, NextMedia(s.media, s.registry, CreatedInsert(t, addr)))
  {}

  lemma {:induction false} PauseAllTracked(s: State, a: Action)
    requires Good(s) && Enabled(s, a) && AllTracked(s.calls, s.media) && (a.PauseDo? || a.CreatedFinish?)
    ensures AllTracked(s.calls, NextMedia(s.media, s.registry, a))
  {}

  lemma {:induction false} OtherAllTracked(s: State, a: Action)
    requires Good(s) && Enabled(s, a) && AllTracked(s.calls, s.media) && !IsCallStep(a)
    requires !a.CreatedInsert? && !a.PauseDo? && !a.CreatedFinish?
    ensures AllTracked(s.calls, NextMedia(s.media, s.registry, a))
  {}

  lemma {:induction false} StreamAllTracked(s: State, a: Action)
    requires Good(s) && Enabled(s, a) && AllTracked(s.calls, s.media) && OneUp(s, a) && !IsCallStep(a)
    ensures AllTracked(s.calls, NextMedia(s.media, s.registry, a))
  {
    if a.CreatedInsert? {
      InsertAllTracked(s, a.t, a.addr);
    } else if a.PauseDo? || a.CreatedFinish? {
      PauseAllTracked(s, a);
    } else {
      OtherAllTracked(s, a);
    }
  }

  lemma {:induction false} RunAllTracked(s: State, actions: seq<Action>)
    requires Good(s) && Possible(s, actions) && OneUpRun(s, actions) && AllTracked(s.calls, s.media)
    ensures AllTracked(After(s, actions).calls, After(s, actions).media)
    decreases |actions|
  {
    if actions != [] {
      var a := actions[0];
      StepGood(s, a);
      if IsCallStep(a) { CallAllTracked(s, a); } else { StreamAllTracked(s, a); }
      RunAllTracked(Next(s, a), actions[1..]);
    }
  }

  /** In every interleaving in which PJSIP has one stream up per id at a time: with no registration or
      created-callback in flight, every announced stream of a connected quiet call is paused. */
  lemma {:induction false} QuietCallsAreSilent(actions: seq<Action>, addr: nat)
    requires Possible(Init(), actions) && OneUpRun(Init(), actions)
    requires var s := After(Init(), actions);
             && addr in s.media.live && s.media.live[addr].life == Announced
             && OfConnected(s.calls, s.media.live[addr])
             && s.media.live[addr].id in s.registry && s.registry[s.media.live[addr].id].entry == Quiet
             && !InFlight(s.media, s.media.live[addr].id)
    ensures After(Init(), actions).media.live[addr].paused
  {
    InitGood();
    RunGood(Init(), actions);
    RunAllTracked(Init(), actions);
  }
}
