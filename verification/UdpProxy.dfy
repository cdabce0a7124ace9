/** The UDP proxy's tasks around the shared table: the listener, one set-up task per new
    source, the cleanup scheduler and the relay tasks of every session, interleaved in every
    possible way (`serve_graceful` and `open_session` in `src/proxy/udp.rs`). */
module UdpProxy {
  import opened Machine
  import opened Limits
  import opened UdpTable

  datatype Config = Config(caps: Caps, idleSecs: u64)

  datatype Listener =
    | Select
    | Got(src: Src)                    // a packet was received
    | Missed(src: Src)                 // no live session for it
    | Marked(src: Src, gap: bool)      // marked pending; gap: a session had appeared meanwhile
    | Refused(src: Src)                // over a cap; the mark is still there
    | Granted(src: Src, id: Id, gap: bool)
    | DrainSecond(noSessions: bool)    // the drain test read the map, not yet `pending`
    | Forcing(todo: set<Src>)          // cancelling sessions, map locked
    | Exited(drained: bool)

  datatype SetupPc = Opening | Open | Inserting | Clearing

  datatype Setup = Setup(src: Src, pc: SetupPc, gap: bool)

  datatype Cleanup =
    | Planning
    | Waiting(since: u64, until: nat)
    | Woken
    | Locking(now: u64)                // read the clock, waits for the map
    | Sweeping(now: u64, todo: set<Src>)
    | Stopped

  datatype State = State(
    t: Table,
    listener: Listener, draining: bool,
    setups: map<Id, Setup>,
    cleanup: Cleanup, sweeps: nat,     // sweeps: passes completed
    stop: bool, force: bool, cleanupShut: bool,
    forced: bool,                      // the listener's force arm has run
    now: u64, next: Id)

  function Init(now: u64): State {
    State(EMPTY_TABLE, Select, false, map[], Planning, 0, false, false, false, false, now, 0)
  }

  datatype Event =
    // listener
    | StartDrain | Packet(src: Src) | LookUp | MarkPending | AskSlot | ClearMark | Spawn
    | DrainReadsMap | DrainReadsPending
    | ForceBegins | ForceOne(src: Src) | ForceEnds
    // set-up tasks
    | OpenFails(id: Id) | OpenSucceeds(id: Id) | CheckForce(id: Id) | InsertSession(id: Id) | SetupEnds(id: Id)
    // cleanup task
    | Plan(wait: u64) | PermitWakes | TimerWakes | ReadClock | LockMap | Sweep(src: Src) | SweepEnds | CleanupStops
    // relay tasks
    | Stamp(id: Id) | Die(id: Id)
    // environment
    | Tick(ms: nat) | RequestStop | RequestForce

  /** The session map's lock is held across steps only by the two loops over it. */
  predicate MapFree(s: State) {
    !s.cleanup.Sweeping? && !s.listener.Forcing?
  }

  predicate AtPc(s: State, id: Id, pc: SetupPc) {
    id in s.setups && s.setups[id].pc == pc
  }

  predicate Ending(s: State) {
    s.force || s.cleanupShut
  }

  ghost predicate Can(cfg: Config, s: State, e: Event) {
    match e
    case StartDrain => s.listener.Select? && s.stop && !s.draining
    case Packet(_) => s.listener.Select?
    case LookUp => s.listener.Got? && MapFree(s)
    case MarkPending => s.listener.Missed?
    case AskSlot => s.listener.Marked? && |s.t.held| < U32_MAX && NoOverflow(s.t.ledger, s.listener.src.ip)
    case ClearMark => s.listener.Refused?
    case Spawn => s.listener.Granted?
    case DrainReadsMap => s.listener.Select? && s.draining && MapFree(s)
    case DrainReadsPending => s.listener.DrainSecond?
    case ForceBegins => s.listener.Select? && s.force && MapFree(s)
    case ForceOne(src) => s.listener.Forcing? && src in s.listener.todo && src in s.t.sessions
    case ForceEnds => s.listener.Forcing? && s.listener.todo == {}
    case OpenFails(id) => AtPc(s, id, Opening)
    case OpenSucceeds(id) => AtPc(s, id, Opening)
    case CheckForce(id) => AtPc(s, id, Open)
    case InsertSession(id) => AtPc(s, id, Inserting) && MapFree(s)
    case SetupEnds(id) => AtPc(s, id, Clearing)
    case Plan(wait) => s.cleanup.Planning? && MapFree(s) && IsWait(cfg.idleSecs, s.t, s.now, wait)
    case PermitWakes => s.cleanup.Waiting? && s.t.permit
    case TimerWakes => s.cleanup.Waiting? && s.now >= s.cleanup.until
    case ReadClock => s.cleanup.Woken?
    case LockMap => s.cleanup.Locking? && MapFree(s)
    case Sweep(src) => s.cleanup.Sweeping? && src in s.cleanup.todo
    case SweepEnds => s.cleanup.Sweeping? && s.cleanup.todo == {}
    case CleanupStops => s.cleanup.Waiting? && Ending(s)
    case Stamp(id) => id in s.t.objects
    case Die(id) => id in s.t.objects
    case Tick(ms) => s.now + ms < U64_MAX
    case RequestStop => true
    case RequestForce => true
  }

  // ── Listener ──────────────────────────────────────────────────────────────

  function AfterLookUp(s: State): State
    requires s.listener.Got?
  {
    var src := s.listener.src;
    var (t, found) := Lookup(s.t, src, s.now);
    s.(t := t, listener := if found then Select else Missed(src))
  }

  function AfterMark(s: State): State
    requires s.listener.Missed?
  {
    var src := s.listener.src;
    if s.draining || src in s.t.pending then s.(listener := Select)
    else s.(t := Mark(s.t, src), listener := Marked(src, src in s.t.sessions))
  }

  function AfterAsk(s: State, answer: (Table, bool)): State
    requires s.listener.Marked?
  {
    if answer.1 then
      s.(t := answer.0, listener := Granted(s.listener.src, s.next, s.listener.gap), next := s.next + 1)
    else s.(t := answer.0, listener := Refused(s.listener.src))
  }

  function AfterClearMark(s: State): State
    requires s.listener.Refused?
  {
    s.(t := Unmark(s.t, s.listener.src), listener := Select)
  }

  function AfterSpawn(s: State): State
    requires s.listener.Granted?
  {
    s.(setups := s.setups[s.listener.id := Setup(s.listener.src, Opening, s.listener.gap)], listener := Select)
  }

  function AfterDrainTest(s: State): State
    requires s.listener.DrainSecond?
  {
    if s.listener.noSessions && s.t.pending == {} then s.(listener := Exited(true), cleanupShut := true)
    else s.(listener := Select)
  }

  function AfterForceOne(s: State, src: Src): State
    requires s.listener.Forcing? && src in s.t.sessions
  {
    s.(t := Kill(s.t, s.t.sessions[src], s.now), listener := Forcing(s.listener.todo - {src}))
  }

  function AfterForce(s: State): State {
    s.(t := s.t.(shutdownClosed := s.t.shutdownClosed + |s.t.sessions|, active := 0),
       listener := Exited(false), cleanupShut := true, forced := true)
  }

  // ── Set-up tasks ──────────────────────────────────────────────────────────

  function SetPc(s: State, id: Id, pc: SetupPc): map<Id, Setup>
    requires id in s.setups
  {
    s.setups[id := s.setups[id].(pc := pc)]
  }

  function AfterOpenFails(s: State, id: Id): State
    requires id in s.setups
  {
    s.(setups := SetPc(s, id, Clearing), t := DropSlot(s.t, id))
  }

  function AfterOpens(s: State, id: Id): State
    requires id in s.setups
  {
    s.(setups := SetPc(s, id, Open), t := s.t.(objects := s.t.objects[id := Session(s.now, false, 0, 0)]))
  }

  function AfterCheck(s: State, id: Id): State
    requires id in s.setups
  {
    if s.force then s.(setups := SetPc(s, id, Clearing), t := DropSlot(Kill(s.t, id, s.now), id))
    else s.(setups := SetPc(s, id, Inserting))
  }

  function AfterInsert(s: State, id: Id): State
    requires id in s.setups
  {
    s.(setups := SetPc(s, id, Clearing), t := Insert(s.t, s.setups[id].src, id, s.now))
  }

  function AfterSetup(s: State, id: Id): State
    requires id in s.setups
  {
    s.(setups := s.setups - {id}, t := Unmark(s.t, s.setups[id].src))
  }

  // ── Cleanup task ──────────────────────────────────────────────────────────

  function AfterSweepOne(cfg: Config, s: State, src: Src): State
    requires s.cleanup.Sweeping?
  {
    s.(t := SweepOne(cfg.idleSecs, s.t, src, s.cleanup.now), cleanup := Sweeping(s.cleanup.now, s.cleanup.todo - {src}))
  }

  function AfterSweep(s: State): State {
    s.(t := s.t.(active := |s.t.sessions|), cleanup := Planning, sweeps := s.sweeps + 1)
  }

  ghost function Do(cfg: Config, s: State, e: Event): State
    requires Can(cfg, s, e)
  {
    match e
    case StartDrain => s.(draining := true)
    case Packet(src) => s.(listener := Got(src))
    case LookUp => AfterLookUp(s)
    case MarkPending => AfterMark(s)
    case AskSlot => AfterAsk(s, Grant(cfg.caps, s.t, s.listener.src, s.next))
    case ClearMark => AfterClearMark(s)
    case Spawn => AfterSpawn(s)
    case DrainReadsMap => s.(listener := DrainSecond(s.t.sessions == map[]))
    case DrainReadsPending => AfterDrainTest(s)
    case ForceBegins => s.(listener := Forcing(s.t.sessions.Keys))
    case ForceOne(src) => AfterForceOne(s, src)
    case ForceEnds => AfterForce(s)
    case OpenFails(id) => AfterOpenFails(s, id)
    case OpenSucceeds(id) => AfterOpens(s, id)
    case CheckForce(id) => AfterCheck(s, id)
    case InsertSession(id) => AfterInsert(s, id)
    case SetupEnds(id) => AfterSetup(s, id)
    case Plan(wait) => s.(cleanup := Waiting(s.now, s.now + wait))
    case PermitWakes => s.(t := s.t.(permit := false), cleanup := Planning)
    case TimerWakes => s.(cleanup := Woken)
    case ReadClock => s.(cleanup := Locking(s.now))
    case LockMap => s.(cleanup := Sweeping(s.cleanup.now, s.t.sessions.Keys))
    case Sweep(src) => AfterSweepOne(cfg, s, src)
    case SweepEnds => AfterSweep(s)
    case CleanupStops => s.(cleanup := Stopped)
    case Stamp(id) => s.(t := Touch(s.t, id, s.now))
    case Die(id) => s.(t := Kill(s.t, id, s.now))
    case Tick(ms) => s.(now := s.now + ms)
    case RequestStop => s.(stop := true)
    case RequestForce => s.(force := true)
  }

  /** A run: where the events lead, if each is possible in its turn. */
  ghost function Run(cfg: Config, s: State, es: seq<Event>): Option<State>
    decreases |es|
  {
    if es == [] then Some(s)
    else if Can(cfg, s, es[0]) then Run(cfg, Do(cfg, s, es[0]), es[1..])
    else None
  }

  lemma {:induction false} RunJoin(cfg: Config, s: State, xs: seq<Event>, m: State, ys: seq<Event>)
    requires Run(cfg, s, xs) == Some(m)
    ensures Run(cfg, s, xs + ys) == Run(cfg, m, ys)
    decreases |xs|
  {
    if xs == [] {
      assert xs + ys == ys;
    } else {
      assert (xs + ys)[1..] == xs[1..] + ys;
      RunJoin(cfg, Do(cfg, s, xs[0]), xs[1..], m, ys);
    }
  }

  lemma RunCons(cfg: Config, s: State, e: Event, rest: seq<Event>)
    requires Can(cfg, s, e)
    ensures Run(cfg, s, [e] + rest) == Run(cfg, Do(cfg, s, e), rest)
  {
    assert ([e] + rest)[1..] == rest;
  }
}
