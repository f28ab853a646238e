/** What a reused call id finds: the registrations of `pjsua-safe/src/passthrough.rs` against the lifetimes
    of the calls they were made for. */
module CallReuse {
  import opened Wrappers
  import opened Passthrough

  // ----- calls and their ids --------------------------------------------

  /** An id has the call it was given to, and a call whose disconnect has not run has its id. */
  ghost predicate Lifetimes(c: Calls) {
    && (forall id | id in c.slots :: c.slots[id].call in c.idOf && c.idOf[c.slots[id].call] == id)
    && (forall id | id in c.slots :: c.slots[id].phase == Connected <==> c.slots[id].call !in c.ended)
    && (forall k | k in c.idOf && k !in c.ended :: c.idOf[k] in c.slots && c.slots[c.idOf[k]].call == k)
    && (forall k | k in c.ended :: k in c.idOf)
  }

  lemma {:induction false} StepLifetimes(c: Calls, a: Action)
    requires Lifetimes(c) && CallsEnabled(c, a)
    ensures Lifetimes(NextCalls(c, a))
  {
    var n := NextCalls(c, a);
    match a
    case Begin(id, call) =>
      assert forall i | i in c.slots :: n.slots[i] == c.slots[i] && c.slots[i].call != call;
    case DisconnectEntry(_, id) =>
      assert forall i | i in c.slots && i != id :: n.slots[i] == c.slots[i] && c.slots[i].call != c.slots[id].call;
    case DisconnectStream(_, id) =>
      assert forall i | i in c.slots && i != id :: n.slots[i] == c.slots[i];
    case Release(id) =>
      assert c.slots[id].call in c.ended;
    case _ =>
  }

  /** A call on its way out has its callback running. */
  ghost predicate CallbackRuns(c: Calls, m: Media) {
    forall id | HasPhase(c, id, Ending) :: exists t :: t in m.tasks && m.tasks[t] == Disconnecting(id)
  }

  /** The registry only holds entries for calls that have, or had, the id. */
  ghost predicate OwnersKnown(c: Calls, r: Registry) {
    forall id | id in r :: r[id].owner in c.idOf && c.idOf[r[id].owner] == id
  }

  /** So do the registrations still to look their stream up. */
  ghost predicate LookUpsKnown(c: Calls, m: Media) {
    forall t | t in m.tasks && m.tasks[t].Registering? ::
      m.tasks[t].owner in c.idOf && c.idOf[m.tasks[t].owner] == m.tasks[t].id
  }

  lemma {:induction false} OtherTask(m: Media, r: Registry, a: Action, t: nat)
    requires MediaEnabled(m, a) && !a.DisconnectStream? && t in m.tasks && m.tasks[t].Disconnecting?
    ensures t in NextMedia(m, r, a).tasks && NextMedia(m, r, a).tasks[t] == m.tasks[t]
  {}

  lemma {:induction false} StepCallback(s: State, a: Action)
    requires Enabled(s, a) && CallbackRuns(s.calls, s.media)
    ensures CallbackRuns(Next(s, a).calls, Next(s, a).media)
  {
    var n := Next(s, a);
    forall id | HasPhase(n.calls, id, Ending)
      ensures exists t :: t in n.media.tasks && n.media.tasks[t] == Disconnecting(id)
    {
      if a.DisconnectEntry? && a.id == id {
        assert n.media.tasks[a.t] == Disconnecting(id);
      } else {
        assert HasPhase(s.calls, id, Ending);
        var t :| t in s.media.tasks && s.media.tasks[t] == Disconnecting(id);
        if !a.DisconnectStream? { OtherTask(s.media, s.registry, a, t); }
        assert t in n.media.tasks && n.media.tasks[t] == Disconnecting(id);
      }
    }
  }

  lemma {:induction false} StepOwners(c: Calls, r: Registry, a: Action)
    requires OwnersKnown(c, r) && CallsEnabled(c, a)
    ensures OwnersKnown(NextCalls(c, a), NextRegistry(r, a))
  {}

  lemma {:induction false} StepLookUps(s: State, a: Action)
    requires LookUpsKnown(s.calls, s.media) && Enabled(s, a)
    ensures LookUpsKnown(Next(s, a).calls, Next(s, a).media)
  {}

  ghost predicate Good(s: State) {
    && Inv(s) && Lifetimes(s.calls) && CallbackRuns(s.calls, s.media)
    && OwnersKnown(s.calls, s.registry) && LookUpsKnown(s.calls, s.media)
  }

  lemma {:induction false} StepGood(s: State, a: Action)
    requires Good(s) && Enabled(s, a)
    ensures Good(Next(s, a))
  {
    StepKeeps(s, a);
    StepLifetimes(s.calls, a);
    StepCallback(s, a);
    StepOwners(s.calls, s.registry, a);
    StepLookUps(s, a);
  }

  lemma {:induction false} RunGood(s: State, actions: seq<Action>)
    requires Good(s) && Possible(s, actions)
    ensures Good(After(s, actions))
    decreases |actions|
  {
    if actions != [] {
      StepGood(s, actions[0]);
      RunGood(Next(s, actions[0]), actions[1..]);
    }
  }

  // ----- points of a run ------------------------------------------------

  /** The state in which action `i` of a run happens. */
  function StateBefore(s: State, actions: seq<Action>, i: nat): State
    requires Possible(s, actions) && i <= |actions|
    decreases |actions|
  {
    if i == 0 then s else StateBefore(Next(s, actions[0]), actions[1..], i - 1)
  }

  lemma {:induction false} RunFrom(s: State, actions: seq<Action>, i: nat)
    requires Possible(s, actions) && i <= |actions|
    ensures Possible(StateBefore(s, actions, i), actions[i..])
    ensures After(StateBefore(s, actions, i), actions[i..]) == After(s, actions)
    decreases |actions|
  {
    if i == 0 {
      assert actions[0..] == actions;
    } else {
      RunFrom(Next(s, actions[0]), actions[1..], i - 1);
      assert actions[1..][i - 1..] == actions[i..];
    }
  }

  lemma {:induction false} GoodBefore(s: State, actions: seq<Action>, i: nat)
    requires Good(s) && Possible(s, actions) && i <= |actions|
    ensures Good(StateBefore(s, actions, i))
    decreases |actions|
  {
    if i > 0 {
      StepGood(s, actions[0]);
      GoodBefore(Next(s, actions[0]), actions[1..], i - 1);
    }
  }

  lemma {:induction false} Unroll(s: State, a: Action, actions: seq<Action>)
    requires Enabled(s, a) && Possible(Next(s, a), actions)
    ensures Possible(s, [a] + actions) && After(s, [a] + actions) == After(Next(s, a), actions)
  {
    assert ([a] + actions)[1..] == actions;
  }

  // ----- what callers and PJSIP may keep to -----------------------------

  /** The stream's call has its id, and its disconnect has not finished. */
  predicate Current(c: Calls, x: Stream) {
    x.id in c.slots && c.slots[x.id].call == x.owner && c.slots[x.id].phase != Ended
  }

  predicate IsRegistration(a: Action) { a.RegisterForward? || a.RegisterQuiet? }

  /** A call is registered before its disconnect; its registrations have looked its stream up by then; a
      created-callback runs for a call whose disconnect has not finished. */
  datatype Rule = RegisterInTime | LookUpInTime | CallbackInTime

  function Everything(): set<Rule> { {RegisterInTime, LookUpInTime, CallbackInTime} }

  lemma {:induction false} AllRules(rules: set<Rule>)
    ensures rules <= Everything()
  {
    forall rule | rule in rules
      ensures rule in Everything()
    {
      match rule case RegisterInTime => case LookUpInTime => case CallbackInTime =>
    }
  }

  ghost predicate Keeps(rule: Rule, s: State, a: Action)
    requires Enabled(s, a)
  {
    match rule
    case RegisterInTime => IsRegistration(a) ==> a.owner !in s.calls.ended
    case LookUpInTime =>
      a.DisconnectEntry? ==>
        forall t | t in s.media.tasks && s.media.tasks[t].Registering? ::
          s.media.tasks[t].owner != s.calls.slots[a.id].call
    case CallbackInTime => a.CreatedInsert? ==> Current(s.calls, s.media.live[a.addr])
  }

  ghost predicate KeepsAll(rules: set<Rule>, s: State, a: Action)
    requires Enabled(s, a)
  {
    forall rule | rule in rules :: Keeps(rule, s, a)
  }

  ghost predicate KeepsRun(rules: set<Rule>, s: State, actions: seq<Action>)
    requires Possible(s, actions)
    decreases |actions|
  {
    actions == [] || (KeepsAll(rules, s, actions[0]) && KeepsRun(rules, Next(s, actions[0]), actions[1..]))
  }

  lemma {:induction false} KeepsUnroll(rules: set<Rule>, s: State, a: Action, actions: seq<Action>)
    requires Enabled(s, a) && Possible(Next(s, a), actions)
    requires KeepsAll(rules, s, a) && KeepsRun(rules, Next(s, a), actions)
    ensures Possible(s, [a] + actions) && After(s, [a] + actions) == After(Next(s, a), actions)
    ensures KeepsRun(rules, s, [a] + actions)
  {
    Unroll(s, a, actions);
    assert ([a] + actions)[1..] == actions;
  }

  lemma {:induction false} KeepsFewer(fewer: set<Rule>, rules: set<Rule>, s: State, actions: seq<Action>)
    requires fewer <= rules && Possible(s, actions) && KeepsRun(rules, s, actions)
    ensures KeepsRun(fewer, s, actions)
    decreases |actions|
  {
    if actions != [] { KeepsFewer(fewer, rules, Next(s, actions[0]), actions[1..]); }
  }

  // ----- the last word on an entry --------------------------------------

  predicate Touches(a: Action, id: nat) {
    (IsRegistration(a) || a.Clear? || a.DisconnectEntry?) && a.id == id
  }

  /** A step that is not a call into the registry. */
  predicate IsOther(a: Action) { !IsRegistration(a) && !a.Clear? && !a.DisconnectEntry? }

  predicate Registers(a: Action, id: nat, owner: nat) {
    IsRegistration(a) && a.id == id && a.owner == owner
  }

  /** Action `i` is the last one on the id's entry. */
  predicate LastTouch(actions: seq<Action>, id: nat, i: nat) {
    i < |actions| && Touches(actions[i], id) && forall k | i < k < |actions| :: !Touches(actions[k], id)
  }

  lemma {:induction false} Untouched(s: State, actions: seq<Action>, id: nat)
    requires Possible(s, actions) && forall k | 0 <= k < |actions| :: !Touches(actions[k], id)
    ensures id in After(s, actions).registry <==> id in s.registry
    ensures id in s.registry ==> After(s, actions).registry[id] == s.registry[id]
    decreases |actions|
  {
    if actions != [] {
      assert !Touches(actions[0], id);
      Untouched(Next(s, actions[0]), actions[1..], id);
    }
  }

  /** An entry is there, for whom and of what kind, exactly as the last action on it says. */
  lemma {:induction false} EntryIsLastTouch(s: State, actions: seq<Action>, id: nat, i: nat)
    requires Possible(s, actions) && LastTouch(actions, id, i)
    ensures var r := After(s, actions).registry;
            && (id in r <==> actions[i].RegisterForward? || actions[i].RegisterQuiet?)
            && (id in r ==>
                  r[id] == Registration(if actions[i].RegisterQuiet? then Quiet else Forward, actions[i].owner))
  {
    var b := StateBefore(s, actions, i);
    RunFrom(s, actions, i);
    assert actions[i..][0] == actions[i] && actions[i..][1..] == actions[i + 1..];
    Untouched(Next(b, actions[i]), actions[i + 1..], id);
  }

  lemma {:induction false} FindLastTouch(actions: seq<Action>, id: nat) returns (i: nat)
    requires exists k :: 0 <= k < |actions| && Touches(actions[k], id)
    ensures LastTouch(actions, id, i)
  {
    i := |actions| - 1;
    if !Touches(actions[i], id) {
      var init := actions[..i];
      assert forall k | 0 <= k < i :: init[k] == actions[k];
      i := FindLastTouch(init, id);
    }
  }

  // ----- inherited entries ----------------------------------------------

  /** The call that has the id finds an entry made for an earlier one. */
  predicate Inherits(s: State, id: nat) {
    id in s.calls.slots && id in s.registry && s.registry[id].owner != s.calls.slots[id].call
  }

  /** Action `i` registers for a call whose disconnect has already run, and nothing touches the id's
      entry afterwards. */
  predicate LateRegistration(actions: seq<Action>, id: nat, owner: nat, i: nat)
    requires Possible(Init(), actions)
  {
    && LastTouch(actions, id, i) && Registers(actions[i], id, owner)
    && owner in StateBefore(Init(), actions, i).calls.ended
  }

  /** While nothing touches an id's entry, the call that has the id is not disconnected. */
  lemma {:induction false} StaysConnected(s: State, actions: seq<Action>, id: nat, owner: nat)
    requires Good(s) && Possible(s, actions) && forall k | 0 <= k < |actions| :: !Touches(actions[k], id)
    requires owner in s.calls.idOf && s.calls.idOf[owner] == id && owner !in s.calls.ended
    ensures var c := After(s, actions).calls; owner in c.idOf && c.idOf[owner] == id && owner !in c.ended
    decreases |actions|
  {
    if actions != [] {
      assert !Touches(actions[0], id);
      StepGood(s, actions[0]);
      StaysConnected(Next(s, actions[0]), actions[1..], id, owner);
    }
  }

  lemma {:induction false} EndedStays(s: State, actions: seq<Action>, owner: nat)
    requires Possible(s, actions) && owner in s.calls.ended
    ensures owner in After(s, actions).calls.ended
    decreases |actions|
  {
    if actions != [] { EndedStays(Next(s, actions[0]), actions[1..], owner); }
  }

  lemma {:induction false} InitGood()
    ensures Good(Init())
  {}

  /** The entry of an id was made at the last action on it; for a call other than the one that has the id
      now, that call's disconnect had run by then. */
  lemma {:induction false} InheritedIsLate(actions: seq<Action>, id: nat) returns (i: nat)
    requires Possible(Init(), actions) && Inherits(After(Init(), actions), id)
    ensures LateRegistration(actions, id, After(Init(), actions).registry[id].owner, i)
  {
    var s := After(Init(), actions);
    if forall k | 0 <= k < |actions| :: !Touches(actions[k], id) {
      Untouched(Init(), actions, id);
    }
    i := FindLastTouch(actions, id);
    EntryIsLastTouch(Init(), actions, id, i);
    InitGood();
    RunFrom(Init(), actions, i);
    GoodBefore(Init(), actions, i);
    var b, owner := StateBefore(Init(), actions, i), s.registry[id].owner;
    assert actions[i..][0] == actions[i] && actions[i..][1..] == actions[i + 1..];
    if owner !in b.calls.ended {
      StepGood(b, actions[i]);
      StaysConnected(Next(b, actions[i]), actions[i + 1..], id, owner);
      RunGood(Init(), actions);
    }
  }

  /** In every interleaving, the call that has an id finds an entry made for an earlier call if and only if
      the last action on the entry registered for an earlier call after that call's disconnect had run. */
  lemma {:induction false} InheritedExactly(actions: seq<Action>, id: nat)
    requires Possible(Init(), actions) && id in After(Init(), actions).calls.slots
    ensures Inherits(After(Init(), actions), id) <==>
              exists i, owner :: owner != After(Init(), actions).calls.slots[id].call
                                 && LateRegistration(actions, id, owner, i)
  {
    if Inherits(After(Init(), actions), id) {
      var i := InheritedIsLate(actions, id);
    }
    if i, owner :| owner != After(Init(), actions).calls.slots[id].call && LateRegistration(actions, id, owner, i) {
      EntryIsLastTouch(Init(), actions, id, i);
    }
  }

  /** If everyone registers only while the disconnect of their call has not run, a reused call id never
      inherits an entry. */
  lemma {:induction false} ReusedIdIsClean(actions: seq<Action>, id: nat)
    requires Possible(Init(), actions)
    requires forall i | 0 <= i < |actions| && IsRegistration(actions[i]) ::
               actions[i].owner !in StateBefore(Init(), actions, i).calls.ended
    ensures !Inherits(After(Init(), actions), id)
  {
    if Inherits(After(Init(), actions), id) {
      var i := InheritedIsLate(actions, id);
    }
  }

  // ----- when a registration is safe ------------------------------------

  /** An entry made for `owner` is there for another call. */
  predicate Outlives(s: State, id: nat, owner: nat) { Inherits(s, id) && s.registry[id].owner == owner }

  /** An entry for `owner` implies that its disconnect has not run. */
  predicate Guarded(s: State, id: nat, owner: nat) {
    id in s.registry && s.registry[id].owner == owner ==> owner !in s.calls.ended
  }

  predicate NeverRegisters(actions: seq<Action>, id: nat, owner: nat) {
    forall k | 0 <= k < |actions| :: !Registers(actions[k], id, owner)
  }

  lemma {:induction false} GuardedStays(s: State, actions: seq<Action>, id: nat, owner: nat)
    requires Good(s) && Possible(s, actions) && Guarded(s, id, owner)
    requires NeverRegisters(actions, id, owner)
    ensures !Outlives(After(s, actions), id, owner)
    decreases |actions|
  {
    if actions != [] {
      var a := actions[0];
      assert !Registers(a, id, owner);
      StepGood(s, a);
      assert Guarded(Next(s, a), id, owner);
      GuardedStays(Next(s, a), actions[1..], id, owner);
    }
  }

  lemma {:induction false} Fresh(known: set<nat>) returns (k: nat)
    ensures forall j | j in known :: j < k
  {
    if known == {} {
      k := 0;
    } else {
      var j :| j in known;
      var rest := known - {j};
      k := Fresh(rest);
      assert forall i | i in known :: i == j || i in rest;
      k := if j < k then k else j + 1;
    }
  }

  /** How far PJSIP is from having a connected call under the id. */
  function Stage(s: State, id: nat): nat {
    if id !in s.calls.slots then 1
    else if s.calls.slots[id].phase == Connected then 0
    else if s.calls.slots[id].phase == Ended then 2
    else if s.media.lock == None then 3
    else if s.media.lock.value in s.media.tasks && s.media.tasks[s.media.lock.value].Tracking? then 5
    else 4
  }

  /** The next step on that way: whoever holds the lock goes on, the callback finishes, PJSIP frees the
      id, another call gets it. */
  lemma {:induction false} Onward(s: State, id: nat) returns (a: Action)
    requires Good(s) && Stage(s, id) > 0
    ensures Enabled(s, a) && IsOther(a) && !a.PauseLookup? && !a.CreatedInsert?
    ensures Stage(Next(s, a), id) < Stage(s, id)
  {
    var c, m := s.calls, s.media;
    if id !in c.slots {
      var k := Fresh(c.idOf.Keys);
      a := Begin(id, k);
    } else if c.slots[id].phase == Ended {
      a := Release(id);
    } else if m.lock == None {
      assert HasPhase(c, id, Ending);
      var t :| t in m.tasks && m.tasks[t] == Disconnecting(id);
      a := DisconnectStream(t, id);
    } else {
      var t := m.lock.value;
      var k := m.tasks[t];
      a := if k.Tracking? then CreatedCheck(t) else if k.Checked? then CreatedFinish(t) else PauseDo(t);
    }
  }

  predicate AllOther(actions: seq<Action>) { forall k | 0 <= k < |actions| :: IsOther(actions[k]) }

  /** The entries, and the registrations still to look their stream up, are as they were. */
  ghost predicate SameRegistrations(s: State, n: State) {
    && n.registry == s.registry
    && forall t | t in s.media.tasks && s.media.tasks[t].Registering? ::
         t in n.media.tasks && n.media.tasks[t] == s.media.tasks[t]
  }

  lemma {:induction false} OtherRegistrations(s: State, a: Action)
    requires Enabled(s, a) && IsOther(a) && !a.PauseLookup?
    ensures SameRegistrations(s, Next(s, a)) && Next(s, a).calls.ended == s.calls.ended
  {}

  /** The id comes to a connected call, with nobody calling into the registry and no other call ending. */
  lemma {:induction false} IdPassesOn(s: State, id: nat) returns (later: seq<Action>)
    requires Good(s)
    ensures Possible(s, later) && AllOther(later) && KeepsRun(Everything(), s, later)
    ensures var n := After(s, later);
            Good(n) && SameRegistrations(s, n) && HasPhase(n.calls, id, Connected) && n.calls.ended == s.calls.ended
    decreases Stage(s, id)
  {
    if Stage(s, id) == 0 {
      later := [];
    } else {
      var a := Onward(s, id);
      StepGood(s, a);
      OtherRegistrations(s, a);
      var rest := IdPassesOn(Next(s, a), id);
      KeepsUnroll(Everything(), s, a, rest);
      later := [a] + rest;
    }
  }

  /** The guard a caller can check: registering for a call is safe, whatever follows short of registering
      for it again, if and only if that call's disconnect has not run. */
  lemma {:induction false} RegistrationIsSafeExactly(s: State, a: Action, id: nat, owner: nat)
    requires Good(s) && Enabled(s, a) && Registers(a, id, owner)
    ensures owner !in s.calls.ended <==>
              forall later | Possible(Next(s, a), later) && NeverRegisters(later, id, owner) ::
                !Outlives(After(Next(s, a), later), id, owner)
  {
    var n := Next(s, a);
    StepGood(s, a);
    if owner !in s.calls.ended {
      forall later | Possible(n, later) && NeverRegisters(later, id, owner)
        ensures !Outlives(After(n, later), id, owner)
      {
        GuardedStays(n, later, id, owner);
      }
    } else {
      var later := IdPassesOn(n, id);
      assert Outlives(After(n, later), id, owner);
      assert NeverRegisters(later, id, owner);
    }
  }
}
