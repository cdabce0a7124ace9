/** The end of the UDP proxy's cleanup task: it can stop once the listener is gone, and not
    before, unless all is forced down. */
module UdpStops {
  import opened Machine
  import opened UdpTable
  import opened UdpProxy
  import opened UdpInvariants
  import opened UdpTiming
  import opened UdpEviction
  import opened UdpForce
  import opened UdpAfterForce
  import opened UdpDrain

  /** The cleanup task's own token is cancelled by the listener as it exits, and only then. */
  ghost predicate ShutInv(s: State) {
    && (s.cleanupShut <==> s.listener.Exited?)
    && (s.cleanup.Stopped? ==> Ending(s))
  }

  lemma StepKeepsShut(cfg: Config, s: State, e: Event)
    requires Linked(s.t) && Can(cfg, s, e) && ShutInv(s)
    ensures ShutInv(Do(cfg, s, e))
  {
    CleanupMoves(cfg, s, e);
    ForceStays(cfg, s, e);
    if OfListener(e) {
      ListenerShuts(cfg, s, e);
    } else {
      OthersLeaveListener(cfg, s, e);
      OthersLeaveShut(cfg, s, e);
    }
  }

  lemma ListenerShuts(cfg: Config, s: State, e: Event)
    requires Can(cfg, s, e) && OfListener(e) && ShutInv(s)
    ensures var s' := Do(cfg, s, e); (s'.cleanupShut <==> s'.listener.Exited?) && (s.cleanupShut ==> s'.cleanupShut)
  {
    if e.LookUp? {
      assert Do(cfg, s, e) == AfterLookUp(s);
    } else if e.MarkPending? {
      assert Do(cfg, s, e) == AfterMark(s);
    } else if e.AskSlot? {
      assert Do(cfg, s, e) == AfterAsk(s, Grant(cfg.caps, s.t, s.listener.src, s.next));
    } else if e.ForceOne? {
      assert Do(cfg, s, e) == AfterForceOne(s, e.src);
    } else {
      ExitShuts(cfg, s, e);
    }
  }

  lemma ExitShuts(cfg: Config, s: State, e: Event)
    requires Can(cfg, s, e) && OfListener(e) && ShutInv(s)
    requires !e.LookUp? && !e.MarkPending? && !e.AskSlot? && !e.ForceOne?
    ensures var s' := Do(cfg, s, e); (s'.cleanupShut <==> s'.listener.Exited?) && (s.cleanupShut ==> s'.cleanupShut)
  {}

  lemma OthersLeaveShut(cfg: Config, s: State, e: Event)
    requires Can(cfg, s, e) && !OfListener(e)
    ensures Do(cfg, s, e).cleanupShut == s.cleanupShut && (e.CleanupStops? ==> Ending(s))
  {
    if OfCleanup(e) {
      CleanupStep(cfg, s, e);
    } else if OfSetup(e) {
      SetupsLeaveShut(cfg, s, e);
    }
  }

  lemma SetupsLeaveShut(cfg: Config, s: State, e: Event)
    requires Can(cfg, s, e) && OfSetup(e)
    ensures Do(cfg, s, e).cleanupShut == s.cleanupShut
  {
    if e.OpenFails? {
      assert Do(cfg, s, e) == AfterOpenFails(s, e.id);
    } else if e.OpenSucceeds? {
      assert Do(cfg, s, e) == AfterOpens(s, e.id);
    } else if e.CheckForce? {
      assert Do(cfg, s, e) == AfterCheck(s, e.id);
    } else if e.InsertSession? {
      assert Do(cfg, s, e) == AfterInsert(s, e.id);
    }
  }

  lemma {:induction false} RunKeepsShut(cfg: Config, s: State, es: seq<Event>)
    requires Inv(cfg, s) && ShutInv(s) && Run(cfg, s, es).Some?
    ensures ShutInv(Run(cfg, s, es).value) && Inv(cfg, Run(cfg, s, es).value)
    decreases |es|
  {
    if es != [] {
      StepKeepsInv(cfg, s, es[0]);
      StepKeepsShut(cfg, s, es[0]);
      RunKeepsShut(cfg, Do(cfg, s, es[0]), es[1..]);
    }
  }

  /** In any run the cleanup task stops only after the listener exited or the force token was
      set: until then sessions keep being evicted. */
  lemma StopsOnlyAtTheEnd(cfg: Config, start: u64, es: seq<Event>, s: State)
    requires Run(cfg, Init(start), es) == Some(s) && s.cleanup.Stopped?
    ensures s.listener.Exited? || s.force
  {
    InitInv(cfg, start);
    RunKeepsShut(cfg, Init(start), es);
  }

  // ── It can stop ───────────────────────────────────────────────────────────

  /** The scheduler always has an answer. */
  lemma {:induction false} LeastToIdle(idleSecs: u64, t: Table, now: u64, keys: set<Src>) returns (wait: u64)
    requires keys <= t.sessions.Keys
    ensures wait <= 5000
    ensures forall src <- keys :: wait <= TimeToIdle(idleSecs, Object(t, t.sessions[src]).last, now)
    ensures wait < 5000 ==>
              exists src :: src in keys && wait == TimeToIdle(idleSecs, Object(t, t.sessions[src]).last, now)
    decreases keys
  {
    wait := 5000;
    if keys != {} {
      var src :| src in keys;
      wait := LeastToIdle(idleSecs, t, now, keys - {src});
      wait := Min(wait, TimeToIdle(idleSecs, Object(t, t.sessions[src]).last, now));
    }
  }

  lemma WaitExists(idleSecs: u64, t: Table, now: u64) returns (wait: u64)
    ensures IsWait(idleSecs, t, now, wait)
  {
    if exists src :: src in t.sessions && Object(t, t.sessions[src]).dead {
      wait := 0;
    } else if idleSecs == 0 {
      wait := 5000;
    } else {
      wait := LeastToIdle(idleSecs, t, now, t.sessions.Keys);
    }
  }

  function ToStop(c: Cleanup): nat {
    match c
    case Stopped => 0
    case Waiting(_, _) => 1
    case Planning => 2
    case Sweeping(_, _) => 3
    case Locking(_) => 4
    case Woken => 5
  }

  lemma NextToStop(cfg: Config, s: State) returns (e: Event)
    requires Ending(s) && s.listener.Exited? && !s.cleanup.Stopped? && !s.cleanup.Sweeping?
    ensures Can(cfg, s, e) && Do(cfg, s, e) == s.(cleanup := Do(cfg, s, e).cleanup)
    ensures ToStop(Do(cfg, s, e).cleanup) < ToStop(s.cleanup)
  {
    if s.cleanup.Planning? {
      e := PlanSome(cfg, s);
    } else if s.cleanup.Waiting? {
      e := CleanupStops;
      assert Do(cfg, s, CleanupStops) == s.(cleanup := Stopped);
    } else if s.cleanup.Woken? {
      e := ReadClock;
      assert Do(cfg, s, ReadClock) == s.(cleanup := Locking(s.now));
    } else {
      e := LockMap;
      LockStep(cfg, s);
    }
  }

  lemma PlanSome(cfg: Config, s: State) returns (e: Event)
    requires s.cleanup.Planning? && MapFree(s)
    ensures Can(cfg, s, e) && Do(cfg, s, e) == s.(cleanup := Do(cfg, s, e).cleanup)
    ensures Do(cfg, s, e).cleanup.Waiting?
  {
    var wait := WaitExists(cfg.idleSecs, s.t, s.now);
    e := Plan(wait);
  }

  lemma {:induction false} StopCleanup(cfg: Config, s: State) returns (es: seq<Event>, s': State)
    requires Inv(cfg, s) && Ending(s) && s.listener.Exited?
    ensures Run(cfg, s, es) == Some(s') && s'.cleanup.Stopped?
    decreases ToStop(s.cleanup)
  {
    if s.cleanup.Stopped? {
      es, s' := [], s;
    } else if s.cleanup.Sweeping? {
      var first, s1 := FinishSweep(cfg, s);
      var rest;
      rest, s' := StopCleanup(cfg, s1);
      es := first + rest;
      RunJoin(cfg, s, first, s1, rest);
    } else {
      var e := NextToStop(cfg, s);
      StepKeepsInv(cfg, s, e);
      var rest;
      rest, s' := StopCleanup(cfg, Do(cfg, s, e));
      es := [e] + rest;
      RunCons(cfg, s, e, rest);
    }
  }

  /** Once the listener has exited, drained or forced, the cleanup task can always come to its
      end, by its own steps and without waiting for a timer. */
  lemma CleanupCanStop(cfg: Config, start: u64, es: seq<Event>, s: State) returns (more: seq<Event>, s': State)
    requires Run(cfg, Init(start), es) == Some(s) && s.listener.Exited?
    ensures Run(cfg, s, more) == Some(s') && s'.cleanup.Stopped?
  {
    InitInv(cfg, start);
    RunKeepsShut(cfg, Init(start), es);
    more, s' := StopCleanup(cfg, s);
  }
}
