/** The quiet-stream protocol of `pjsua-safe/src/passthrough.rs`: registrations, PJSIP's calls and PJSIP's
    stream callbacks interleave, guarded by the `STREAMS` and `REGISTRY` locks. */
module Passthrough {
  import opened Wrappers

  // ----- calls ----------------------------------------------------------

  /** A call from the start until its disconnect callback runs, while that runs, and until PJSIP frees
      the id. */
  datatype Phase = Connected | Ending | Ended

  /** The call that has an id. */
  datatype Slot = Slot(call: nat, phase: Phase)

  /** `idOf` gives every call ever begun its id; `ended` are the calls whose disconnect callback has
      begun. */
  datatype Calls = Calls(slots: map<nat, Slot>, idOf: map<nat, nat>, ended: set<nat>)

  // ----- the registry ---------------------------------------------------

  datatype Entry = Forward | Quiet

  /** An entry, and the call whose owner asked for it. The code stores the entry only: a registration,
      like the thread that makes it, names nothing but a call id. */
  datatype Registration = Registration(entry: Entry, owner: nat)

  type Registry = map<nat, Registration>

  // ----- streams --------------------------------------------------------

  /** A PJSIP stream: born before its created-callback, announced once that has stored it, and dying from
      its destroyed-callback until PJSIP frees it. Nothing in the crate resumes a paused stream. */
  datatype Life = Born | Announced | Dying

  datatype Stream = Stream(id: nat, owner: nat, paused: bool, life: Life)

  /** What a thread is in the middle of. The last three hold the `STREAMS` lock. */
  datatype Task =
    | Registering(id: nat, owner: nat)                // Quiet entry inserted, look-up still to come
    | Disconnecting(id: nat)                          // entry removed, stream still tracked
    | Pausing(id: nat, found: Option<nat>)            // looked the stream up
    | Tracking(id: nat, addr: nat)                    // created-callback: stream inserted
    | Checked(id: nat, addr: nat, registered: bool)   // ... and the registry read

  /** `STREAMS` and its lock, PJSIP's streams by address, the threads inside the crate, and whether a
      freed stream was ever paused. */
  datatype Media = Media(streams: map<nat, nat>, live: map<nat, Stream>, lock: Option<nat>, tasks: map<nat, Task>,
                         freedTouched: bool)

  // ----- steps ----------------------------------------------------------

  datatype State = State(calls: Calls, registry: Registry, media: Media)

  datatype Action =
    | Begin(id: nat, call: nat)                   // PJSIP gives a free id to a new call
    | RegisterForward(id: nat, owner: nat)
    | RegisterQuiet(t: nat, id: nat, owner: nat)  // register_quiet: insert the entry
    | PauseLookup(t: nat)                         // pause_current_stream: take the lock, look up
    | PauseDo(t: nat)                             // ... pause what was found, release
    | Clear(id: nat)
    | DisconnectEntry(t: nat, id: nat)            // on_call_disconnected: REGISTRY
    | DisconnectStream(t: nat, id: nat)           // ... STREAMS; the callback returns
    | Release(id: nat)                            // PJSIP frees the id
    | Create(addr: nat, id: nat, owner: nat)      // PJSIP creates a stream for the call with the id
    | CreatedInsert(t: nat, addr: nat)            // on_stream_created2_cb: take the lock, insert
    | CreatedCheck(t: nat)                        // ... read the registry
    | CreatedFinish(t: nat)                       // ... pause if registered, release
    | DestroyedCb(addr: nat)                      // on_stream_destroyed_cb
    | Free(addr: nat)                             // PJSIP frees the stream

  function Init(): State { State(Calls(map[], map[], {}), map[], Media(map[], map[], None, map[], false)) }

  predicate HasPhase(c: Calls, id: nat, phase: Phase) { id in c.slots && c.slots[id].phase == phase }

  predicate CallsEnabled(c: Calls, a: Action) {
    match a
    case Begin(id, call) => id !in c.slots && call !in c.idOf
    case RegisterForward(id, owner) => owner in c.idOf && c.idOf[owner] == id
    case RegisterQuiet(_, id, owner) => owner in c.idOf && c.idOf[owner] == id
    case DisconnectEntry(_, id) => HasPhase(c, id, Connected)
    case DisconnectStream(_, id) => HasPhase(c, id, Ending)
    case Release(id) => HasPhase(c, id, Ended)
    case Create(_, id, owner) => id in c.slots && c.slots[id].call == owner
    case _ => true
  }

  predicate MediaEnabled(m: Media, a: Action) {
    match a
    case RegisterQuiet(t, _, _) => t !in m.tasks
    case PauseLookup(t) => t in m.tasks && m.tasks[t].Registering? && m.lock == None
    case PauseDo(t) => t in m.tasks && m.tasks[t].Pausing?
    case DisconnectEntry(t, _) => t !in m.tasks
    case DisconnectStream(t, id) => t in m.tasks && m.tasks[t] == Disconnecting(id) && m.lock == None
    case Create(addr, _, _) => addr !in m.live
    case CreatedInsert(t, addr) => t !in m.tasks && m.lock == None && addr in m.live && m.live[addr].life == Born
    case CreatedCheck(t) => t in m.tasks && m.tasks[t].Tracking?
    case CreatedFinish(t) => t in m.tasks && m.tasks[t].Checked?
    case DestroyedCb(addr) => m.lock == None && addr in m.live && m.live[addr].life == Announced
    case Free(addr) => addr in m.live && m.live[addr].life == Dying
    case _ => true
  }

  /** Whoever placed a call may register for it, whether or not it is still there. */
  predicate Enabled(s: State, a: Action) { CallsEnabled(s.calls, a) && MediaEnabled(s.media, a) }

  function NextCalls(c: Calls, a: Action): Calls
    requires CallsEnabled(c, a)
  {
    match a
    case Begin(id, call) => c.(slots := c.slots[id := Slot(call, Connected)], idOf := c.idOf[call := id])
    case DisconnectEntry(_, id) =>
      c.(slots := c.slots[id := c.slots[id].(phase := Ending)], ended := c.ended + {c.slots[id].call})
    case DisconnectStream(_, id) => c.(slots := c.slots[id := c.slots[id].(phase := Ended)])
    case Release(id) => c.(slots := c.slots - {id})
    case _ => c
  }

  function NextRegistry(r: Registry, a: Action): Registry {
    match a
    case RegisterForward(id, owner) => r[id := Registration(Forward, owner)]
    case RegisterQuiet(_, id, owner) => r[id := Registration(Quiet, owner)]
    case Clear(id) => r - {id}
    case DisconnectEntry(_, id) => r - {id}
    case _ => r
  }

  /** `pjmedia_stream_pause` on an address, live or not. */
  function Pause(m: Media, addr: nat): Media {
    if addr in m.live then m.(live := m.live[addr := m.live[addr].(paused := true)]) else m.(freedTouched := true)
  }

  function NextMedia(m: Media, r: Registry, a: Action): Media
    requires MediaEnabled(m, a)
  {
    match a
    case RegisterQuiet(t, id, owner) => m.(tasks := m.tasks[t := Registering(id, owner)])
    case PauseLookup(t) =>
      var id := m.tasks[t].id;
      m.(lock := Some(t), tasks := m.tasks[t := Pausing(id, if id in m.streams then Some(m.streams[id]) else None)])
    case PauseDo(t) =>
      var released := m.(lock := None, tasks := m.tasks - {t});
      (match m.tasks[t].found case None => released case Some(addr) => Pause(released, addr))
    case DisconnectEntry(t, id) => m.(tasks := m.tasks[t := Disconnecting(id)])
    case DisconnectStream(t, id) => m.(streams := m.streams - {id}, tasks := m.tasks - {t})
    case Create(addr, id, owner) => m.(live := m.live[addr := Stream(id, owner, false, Born)])
    case CreatedInsert(t, addr) =>
      var id := m.live[addr].id;
      m.(lock := Some(t), streams := m.streams[id := addr], tasks := m.tasks[t := Tracking(id, addr)],
         live := m.live[addr := m.live[addr].(life := Announced)])
    case CreatedCheck(t) =>
      var k := m.tasks[t];
      m.(tasks := m.tasks[t := Checked(k.id, k.addr, k.id in r)])
    case CreatedFinish(t) =>
      var released := m.(lock := None, tasks := m.tasks - {t});
      if m.tasks[t].registered then Pause(released, m.tasks[t].addr) else released
    case DestroyedCb(addr) =>
      var id := m.live[addr].id;
      m.(live := m.live[addr := m.live[addr].(life := Dying)],
         streams := if id in m.streams && m.streams[id] == addr then m.streams - {id} else m.streams)
    case Free(addr) => m.(live := m.live - {addr})
    case _ => m
  }

  function Next(s: State, a: Action): State
    requires Enabled(s, a)
  {
    State(NextCalls(s.calls, a), NextRegistry(s.registry, a), NextMedia(s.media, s.registry, a))
  }

  predicate Possible(s: State, actions: seq<Action>)
    decreases |actions|
  {
    actions == [] || (Enabled(s, actions[0]) && Possible(Next(s, actions[0]), actions[1..]))
  }

  function After(s: State, actions: seq<Action>): State
    requires Possible(s, actions)
    decreases |actions|
  {
    if actions == [] then s else After(Next(s, actions[0]), actions[1..])
  }

  // ----- what every interleaving keeps ----------------------------------

  predicate HoldsLock(k: Task) { k.Pausing? || k.Tracking? || k.Checked? }

  /** A registration or a created-callback for `id` that may still pause its stream. */
  predicate InFlightFor(k: Task, id: nat) {
    k.id == id && (k.Registering? || k.Pausing? || k.Tracking? || (k.Checked? && k.registered))
  }

  ghost predicate InFlight(m: Media, id: nat) { exists t :: t in m.tasks && InFlightFor(m.tasks[t], id) }

  /** Every tracked stream is its id's, announced, and not yet told to die. */
  ghost predicate TracksLive(m: Media) {
    forall c | c in m.streams ::
      m.streams[c] in m.live && m.live[m.streams[c]].id == c && m.live[m.streams[c]].life == Announced
  }

  /** Exactly the lock's owner is inside a locked section, and what it looked up is still so. */
  ghost predicate LockConsistent(m: Media) {
    forall t | t in m.tasks :: (HoldsLock(m.tasks[t]) <==> m.lock == Some(t)) && match m.tasks[t]
      case Pausing(c, found) => found == if c in m.streams then Some(m.streams[c]) else None
      case Tracking(c, addr) => c in m.streams && m.streams[c] == addr
      case Checked(c, addr, _) => c in m.streams && m.streams[c] == addr
      case _ => true
  }

  predicate LockOwned(m: Media) { m.lock.Some? ==> m.lock.value in m.tasks && HoldsLock(m.tasks[m.lock.value]) }

  ghost predicate Sound(m: Media) { TracksLive(m) && LockConsistent(m) && LockOwned(m) && !m.freedTouched }

  /** A quiet call's tracked stream is paused, or someone is on the way to pause it. */
  ghost predicate QuietSoon(r: Registry, m: Media) {
    forall c | c in r && r[c].entry == Quiet && c in m.streams ::
      (m.streams[c] in m.live && m.live[m.streams[c]].paused) || InFlight(m, c)
  }

  ghost predicate Inv(s: State) { Sound(s.media) && QuietSoon(s.registry, s.media) }

  /** Tasks of other threads, and what they may still pause, survive a change of one thread's task. */
  lemma {:induction false} OthersStay(m: Media, n: Media, t: nat, c: nat)
    requires forall u | u != t :: (u in n.tasks <==> u in m.tasks) && (u in m.tasks ==> n.tasks[u] == m.tasks[u])
    requires InFlight(m, c) && (t in m.tasks ==> !InFlightFor(m.tasks[t], c))
    ensures InFlight(n, c)
  {
    var u :| u in m.tasks && InFlightFor(m.tasks[u], c);
    assert u != t && u in n.tasks && InFlightFor(n.tasks[u], c);
  }

  /** Pausing a live stream leaves every stream as it was, but that one paused. */
  lemma {:induction false} PausedStays(m: Media, addr: nat)
    requires addr in m.live
    ensures var n := Pause(m, addr);
            && n == m.(live := n.live) && n.live.Keys == m.live.Keys && n.live[addr].paused
            && forall b | b in m.live :: n.live[b] == m.live[b].(paused := m.live[b].paused || b == addr)
  {}

  // ----- the lock and the streams ---------------------------------------

  lemma {:induction false} RegistrySound(m: Media, r: Registry, a: Action)
    requires Sound(m) && MediaEnabled(m, a) && (a.RegisterQuiet? || a.DisconnectEntry? || a.DisconnectStream?)
    ensures Sound(NextMedia(m, r, a))
  {}

  lemma {:induction false} LookupSound(m: Media, r: Registry, t: nat)
    requires Sound(m) && MediaEnabled(m, PauseLookup(t))
    ensures Sound(NextMedia(m, r, PauseLookup(t)))
  {}

  lemma {:induction false} CreatedSound(m: Media, r: Registry, a: Action)
    requires Sound(m) && MediaEnabled(m, a) && (a.CreatedInsert? || a.CreatedCheck?)
    ensures Sound(NextMedia(m, r, a))
  {}

  lemma {:induction false} PauseSound(m: Media, r: Registry, a: Action)
    requires Sound(m) && MediaEnabled(m, a) && (a.PauseDo? || a.CreatedFinish?)
    ensures Sound(NextMedia(m, r, a))
  {
    var k := m.tasks[a.t];
    if k.id in m.streams { PausedStays(m.(lock := None, tasks := m.tasks - {a.t}), m.streams[k.id]); }
  }

  lemma {:induction false} PjsipSound(m: Media, r: Registry, a: Action)
    requires Sound(m) && MediaEnabled(m, a) && (a.Create? || a.DestroyedCb? || a.Free?)
    ensures Sound(NextMedia(m, r, a))
  {}

  lemma {:induction false} StepSound(m: Media, r: Registry, a: Action)
    requires Sound(m) && MediaEnabled(m, a)
    ensures Sound(NextMedia(m, r, a))
  {
    match a
    case RegisterQuiet(_, _, _) => RegistrySound(m, r, a);
    case DisconnectEntry(_, _) => RegistrySound(m, r, a);
    case DisconnectStream(_, _) => RegistrySound(m, r, a);
    case PauseLookup(t) => LookupSound(m, r, t);
    case CreatedInsert(_, _) => CreatedSound(m, r, a);
    case CreatedCheck(_) => CreatedSound(m, r, a);
    case PauseDo(_) => PauseSound(m, r, a);
    case CreatedFinish(_) => PauseSound(m, r, a);
    case Create(_, _, _) => PjsipSound(m, r, a);
    case DestroyedCb(_) => PjsipSound(m, r, a);
    case Free(_) => PjsipSound(m, r, a);
    case _ =>
  }

  // ----- quiet calls ----------------------------------------------------

  lemma {:induction false} RegistryQuiet(s: State, a: Action)
    requires Inv(s) && Enabled(s, a)
    requires a.RegisterForward? || a.Clear? || a.DisconnectEntry? || a.RegisterQuiet?
    ensures QuietSoon(Next(s, a).registry, Next(s, a).media)
  {
    var m, n, r := s.media, Next(s, a).media, Next(s, a).registry;
    forall c | c in r && r[c].entry == Quiet && c in n.streams
      ensures n.live[n.streams[c]].paused || InFlight(n, c)
    {
      if a.RegisterQuiet? && c == a.id {
        assert InFlightFor(n.tasks[a.t], c);
      } else if !m.live[m.streams[c]].paused {
        if a.RegisterQuiet? || a.DisconnectEntry? { OthersStay(m, n, a.t, c); }
      }
    }
  }

  lemma {:induction false} LookupQuiet(m: Media, r: Registry, t: nat)
    requires Sound(m) && QuietSoon(r, m) && MediaEnabled(m, PauseLookup(t))
    ensures QuietSoon(r, NextMedia(m, r, PauseLookup(t)))
  {
    var n := NextMedia(m, r, PauseLookup(t));
    forall c | c in r && r[c].entry == Quiet && c in n.streams
      ensures n.live[n.streams[c]].paused || InFlight(n, c)
    {
      if c == m.tasks[t].id {
        assert InFlightFor(n.tasks[t], c);
      } else if !m.live[m.streams[c]].paused {
        OthersStay(m, n, t, c);
      }
    }
  }

  lemma {:induction false} PauseQuiet(m: Media, r: Registry, t: nat)
    requires Sound(m) && QuietSoon(r, m) && MediaEnabled(m, PauseDo(t))
    ensures QuietSoon(r, NextMedia(m, r, PauseDo(t)))
  {
    var n, id := NextMedia(m, r, PauseDo(t)), m.tasks[t].id;
    if id in m.streams { PausedStays(m.(lock := None, tasks := m.tasks - {t}), m.streams[id]); }
    forall c | c in r && r[c].entry == Quiet && c in n.streams
      ensures n.live[n.streams[c]].paused || InFlight(n, c)
    {
      if c != id && !m.live[m.streams[c]].paused { OthersStay(m, n, t, c); }
    }
  }

  lemma {:induction false} DisconnectQuiet(m: Media, r: Registry, t: nat, id: nat)
    requires Sound(m) && QuietSoon(r, m) && MediaEnabled(m, DisconnectStream(t, id))
    ensures QuietSoon(r, NextMedia(m, r, DisconnectStream(t, id)))
  {
    var n := NextMedia(m, r, DisconnectStream(t, id));
    forall c | c in r && r[c].entry == Quiet && c in n.streams
      ensures n.live[n.streams[c]].paused || InFlight(n, c)
    {
      if !m.live[m.streams[c]].paused { OthersStay(m, n, t, c); }
    }
  }

  lemma {:induction false} InsertQuiet(m: Media, r: Registry, t: nat, addr: nat)
    requires Sound(m) && QuietSoon(r, m) && MediaEnabled(m, CreatedInsert(t, addr))
    ensures QuietSoon(r, NextMedia(m, r, CreatedInsert(t, addr)))
  {
    var n := NextMedia(m, r, CreatedInsert(t, addr));
    forall c | c in r && r[c].entry == Quiet && c in n.streams
      ensures n.live[n.streams[c]].paused || InFlight(n, c)
    {
      if c == m.live[addr].id {
        assert InFlightFor(n.tasks[t], c);
      } else if !m.live[m.streams[c]].paused {
        OthersStay(m, n, t, c);
      }
    }
  }

  lemma {:induction false} CheckQuiet(m: Media, r: Registry, t: nat)
    requires Sound(m) && QuietSoon(r, m) && MediaEnabled(m, CreatedCheck(t))
    ensures QuietSoon(r, NextMedia(m, r, CreatedCheck(t)))
  {
    var n := NextMedia(m, r, CreatedCheck(t));
    forall c | c in r && r[c].entry == Quiet && c in n.streams
      ensures n.live[n.streams[c]].paused || InFlight(n, c)
    {
      if c == m.tasks[t].id {
        assert InFlightFor(n.tasks[t], c);
      } else if !m.live[m.streams[c]].paused {
        OthersStay(m, n, t, c);
      }
    }
  }

  lemma {:induction false} FinishQuiet(m: Media, r: Registry, t: nat)
    requires Sound(m) && QuietSoon(r, m) && MediaEnabled(m, CreatedFinish(t))
    ensures QuietSoon(r, NextMedia(m, r, CreatedFinish(t)))
  {
    var n, k := NextMedia(m, r, CreatedFinish(t)), m.tasks[t];
    PausedStays(m.(lock := None, tasks := m.tasks - {t}), k.addr);
    forall c | c in r && r[c].entry == Quiet && c in n.streams
      ensures n.live[n.streams[c]].paused || InFlight(n, c)
    {
      if (c != k.id || !k.registered) && !m.live[m.streams[c]].paused { OthersStay(m, n, t, c); }
    }
  }

  lemma {:induction false} PjsipQuiet(m: Media, r: Registry, a: Action)
    requires Sound(m) && QuietSoon(r, m) && MediaEnabled(m, a) && (a.Create? || a.DestroyedCb? || a.Free?)
    ensures QuietSoon(r, NextMedia(m, r, a))
  {
    var n := NextMedia(m, r, a);
    forall c | c in r && r[c].entry == Quiet && c in n.streams
      ensures n.live[n.streams[c]].paused || InFlight(n, c)
    {
      if InFlight(m, c) {
        var t :| t in m.tasks && InFlightFor(m.tasks[t], c);
        assert t in n.tasks && InFlightFor(n.tasks[t], c);
      }
    }
  }

  lemma {:induction false} StepQuiet(s: State, a: Action)
    requires Inv(s) && Enabled(s, a)
    ensures QuietSoon(Next(s, a).registry, Next(s, a).media)
  {
    match a
    case RegisterForward(_, _) => RegistryQuiet(s, a);
    case RegisterQuiet(_, _, _) => RegistryQuiet(s, a);
    case Clear(_) => RegistryQuiet(s, a);
    case DisconnectEntry(_, _) => RegistryQuiet(s, a);
    case PauseLookup(t) => LookupQuiet(s.media, s.registry, t);
    case PauseDo(t) => PauseQuiet(s.media, s.registry, t);
    case DisconnectStream(t, id) => DisconnectQuiet(s.media, s.registry, t, id);
    case CreatedInsert(t, addr) => InsertQuiet(s.media, s.registry, t, addr);
    case CreatedCheck(t) => CheckQuiet(s.media, s.registry, t);
    case CreatedFinish(t) => FinishQuiet(s.media, s.registry, t);
    case Create(_, _, _) => PjsipQuiet(s.media, s.registry, a);
    case DestroyedCb(_) => PjsipQuiet(s.media, s.registry, a);
    case Free(_) => PjsipQuiet(s.media, s.registry, a);
    case _ =>
  }

  lemma {:induction false} StepKeeps(s: State, a: Action)
    requires Inv(s) && Enabled(s, a)
    ensures Inv(Next(s, a))
  {
    StepSound(s.media, s.registry, a);
    StepQuiet(s, a);
  }

  lemma {:induction false} RunKeeps(s: State, actions: seq<Action>)
    requires Inv(s) && Possible(s, actions)
    ensures Inv(After(s, actions))
    decreases |actions|
  {
    if actions != [] {
      StepKeeps(s, actions[0]);
      RunKeeps(Next(s, actions[0]), actions[1..]);
    }
  }

  /** In every interleaving: no freed stream is ever paused, every tracked stream is a live one of its id
      that PJSIP has not begun to destroy, and a quiet call with no registration or created-callback in
      flight has its tracked stream paused. */
  lemma {:induction false} QuietStreamsAreSafe(actions: seq<Action>)
    requires Possible(Init(), actions)
    ensures var s := After(Init(), actions);
            var m := s.media;
            && !m.freedTouched
            && TracksLive(m)
            && forall c | c in s.registry && s.registry[c].entry == Quiet && c in m.streams && !InFlight(m, c) ::
                 m.live[m.streams[c]].paused
  {
    RunKeeps(Init(), actions);
  }
}
