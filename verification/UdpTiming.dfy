/** The cleanup scheduler of the UDP proxy: it never sleeps past a deadline, it evicts on time,
    and a pass it did not wait for does its work. */
module UdpTiming {
  import opened Machine
  import opened UdpTable
  import opened UdpProxy
  import opened UdpInvariants

  // ── How sessions age ──────────────────────────────────────────────────────

  function SessionAt(t: Table, src: Src): Session
    requires src in t.sessions
  {
    Object(t, t.sessions[src])
  }

  /** What one step may do to a session that stays in the map: refresh it, or mark it dead. */
  predicate Aged(o: Session, o': Session, now: u64) {
    && (o'.last == o.last || o'.last == now)
    && ((o'.dead == o.dead && o'.deadAt == o.deadAt) || (!o.dead && o'.dead && o'.deadAt == now))
    && o'.joinedAt == o.joinedAt
  }

  /** No session joined, and those that stayed aged. */
  ghost predicate Ages(t: Table, t': Table, now: u64) {
    forall src <- t'.sessions ::
      src in t.sessions && t'.sessions[src] == t.sessions[src] && Aged(SessionAt(t, src), SessionAt(t', src), now)
  }

  lemma TouchAges(t: Table, id: Id, now: u64)
    ensures Ages(t, Touch(t, id, now), now)
  {}

  lemma KillAges(t: Table, id: Id, now: u64)
    ensures Ages(t, Kill(t, id, now), now)
  {}

  lemma RemoveAges(t: Table, src: Src, now: u64)
    ensures Ages(t, Remove(t, src), now)
  {}

  lemma LookupAges(t: Table, src: Src, now: u64)
    ensures Ages(t, Lookup(t, src, now).0, now)
    ensures Lookup(t, src, now).0.permit == t.permit
  {
    RemoveAges(t, src, now);
    if src in t.sessions {
      TouchAges(t, t.sessions[src], now);
    }
  }

  /** Every step but an insert and a sweep ages the map; only the permit's consumer and an
      insert touch the permit. */
  lemma StepAges(cfg: Config, s: State, e: Event)
    requires Linked(s.t) && OwnersInv(s) && Can(cfg, s, e) && !e.InsertSession? && !e.Sweep?
    ensures Ages(s.t, Do(cfg, s, e).t, s.now)
    ensures !e.PermitWakes? ==> Do(cfg, s, e).t.permit == s.t.permit
  {
    if OfListener(e) {
      ListenerAges(cfg, s, e);
    } else if OfSetup(e) {
      SetupAges(cfg, s, e);
    } else if e.Stamp? {
      TouchAges(s.t, e.id, s.now);
    } else if e.Die? {
      KillAges(s.t, e.id, s.now);
    } else {
      assert Do(cfg, s, e).t == s.t.(active := Do(cfg, s, e).t.active, permit := Do(cfg, s, e).t.permit);
    }
  }

  lemma SameMapAges(t: Table, t': Table, now: u64)
    requires t'.sessions == t.sessions && t'.objects == t.objects
    ensures Ages(t, t', now)
  {}

  lemma ListenerAges(cfg: Config, s: State, e: Event)
    requires Can(cfg, s, e) && OfListener(e)
    ensures Ages(s.t, Do(cfg, s, e).t, s.now) && Do(cfg, s, e).t.permit == s.t.permit
  {
    if e.LookUp? {
      LookupAges(s.t, s.listener.src, s.now);
    } else if e.ForceOne? {
      KillAges(s.t, s.t.sessions[e.src], s.now);
    } else {
      ListenerLeavesMap(cfg, s, e);
      SameMapAges(s.t, Do(cfg, s, e).t, s.now);
    }
  }

  lemma ListenerLeavesMap(cfg: Config, s: State, e: Event)
    requires Can(cfg, s, e) && OfListener(e) && !e.LookUp? && !e.ForceOne?
    ensures var t' := Do(cfg, s, e).t;
            t'.sessions == s.t.sessions && t'.objects == s.t.objects && t'.permit == s.t.permit
  {
    if !OfAdmission(e) && !e.ForceEnds? {
      IdleListenerIsQuiet(cfg, s, e);
    } else if e.AskSlot? {
      GrantAnswers(cfg, s);
      assert Do(cfg, s, e) == AfterAsk(s, Grant(cfg.caps, s.t, s.listener.src, s.next));
    } else if e.MarkPending? {
      assert Do(cfg, s, e) == AfterMark(s);
    } else if e.ForceEnds? {
      assert Do(cfg, s, e) == AfterForce(s);
    }
  }

  lemma SetupAges(cfg: Config, s: State, e: Event)
    requires Linked(s.t) && OwnersInv(s) && Can(cfg, s, e) && OfSetup(e) && !e.InsertSession?
    ensures Ages(s.t, Do(cfg, s, e).t, s.now) && Do(cfg, s, e).t.permit == s.t.permit
  {
    assert SetupOwns(s, e.id);
    if e.CheckForce? {
      KillAges(s.t, e.id, s.now);
      CheckAges(s, e.id);
    } else if e.OpenSucceeds? {
      OpensAges(s, e.id);
    } else {
      SameMapAges(s.t, Do(cfg, s, e).t, s.now);
    }
  }

  lemma CheckAges(s: State, id: Id)
    requires AtPc(s, id, Open) && Ages(s.t, Kill(s.t, id, s.now), s.now)
    ensures Ages(s.t, AfterCheck(s, id).t, s.now) && AfterCheck(s, id).t.permit == s.t.permit
  {
    KillIsQuiet(s.t, id, s.now);
  }

  lemma OpensAges(s: State, id: Id)
    requires Linked(s.t) && AtPc(s, id, Opening) && SetupOwns(s, id)
    ensures Ages(s.t, AfterOpens(s, id).t, s.now)
  {
    assert forall src <- s.t.sessions :: s.t.sessions[src] != id;
  }

  // ── The scheduler's sleep ─────────────────────────────────────────────────

  ghost predicate StampsInv(s: State) {
    && s.now < U64_MAX && Timely(s.t, s.now)
    && (s.cleanup.Locking? ==> s.cleanup.now <= s.now)
    && (s.cleanup.Sweeping? ==> s.cleanup.now <= s.now)
  }

  ghost predicate Timely(t: Table, now: u64) {
    forall id <- t.objects :: Stamped(t.objects[id], now)
  }

  predicate Stamped(o: Session, now: u64) {
    o.last <= now && (o.dead ==> o.deadAt <= now) && o.joinedAt <= now
  }

  /** The sleep from `since` to `until` respects the session: it ends by the idle deadline,
      and a session that was dead when it was planned is not slept on. A sleep of length zero
      respects everything. */
  predicate Respects(cfg: Config, o: Session, since: u64, until: int) {
    || until <= since
    || ((cfg.idleSecs > 0 ==> until <= o.last + 1000 * cfg.idleSecs) && (o.dead ==> o.deadAt >= since))
  }

  ghost predicate SleepInv(cfg: Config, s: State) {
    s.cleanup.Waiting? ==>
      && s.cleanup.since <= s.now && s.cleanup.since <= s.cleanup.until <= s.cleanup.since + 5000
      && (!s.t.permit ==>
            forall src <- s.t.sessions :: Respects(cfg, SessionAt(s.t, src), s.cleanup.since, s.cleanup.until))
  }

  lemma TouchIsTimely(t: Table, id: Id, at: u64, now: u64)
    requires Timely(t, now) && at <= now
    ensures Timely(Touch(t, id, at), now) && Timely(Kill(t, id, at), now)
  {}

  lemma SameObjects(t: Table, t': Table, now: u64)
    requires Timely(t, now) && t'.objects == t.objects
    ensures Timely(t', now)
  {}

  lemma StepKeepsStamps(cfg: Config, s: State, e: Event)
    requires StampsInv(s) && Can(cfg, s, e)
    ensures StampsInv(Do(cfg, s, e))
  {
    CleanupClock(cfg, s, e);
    if e.Tick? {
    } else if OfListener(e) {
      ListenerIsTimely(cfg, s, e);
    } else if OfSetup(e) {
      SetupIsTimely(cfg, s, e);
    } else if e.Sweep? {
      SweepIsTimely(cfg, s.t, e.src, s.cleanup.now, s.now);
    } else if e.Stamp? {
      TouchIsTimely(s.t, e.id, s.now, s.now);
    } else if e.Die? {
      TouchIsTimely(s.t, e.id, s.now, s.now);
    } else if OfCleanup(e) {
      CleanupStep(cfg, s, e);
      SameObjects(s.t, Do(cfg, s, e).t, s.now);
    } else {
      RestLeavesCleanup(cfg, s, e);
    }
  }

  predicate OfCleanup(e: Event) {
    e.Plan? || e.PermitWakes? || e.TimerWakes? || e.ReadClock? || e.LockMap? || e.SweepEnds? || e.CleanupStops?
  }

  /** The cleanup task's own steps outside the eviction loop. */
  lemma CleanupStep(cfg: Config, s: State, e: Event)
    requires Can(cfg, s, e) && OfCleanup(e)
    ensures CleanupFrame(s, Do(cfg, s, e)) && CleanupMove(s, e, Do(cfg, s, e).cleanup)
  {
    if e.Plan? {
      assert Do(cfg, s, e) == s.(cleanup := Waiting(s.now, s.now + e.wait));
    } else if e.PermitWakes? {
      assert Do(cfg, s, e) == s.(t := s.t.(permit := false), cleanup := Planning);
    } else if e.SweepEnds? {
      assert Do(cfg, s, e) == AfterSweep(s);
    } else {
      CleanupWalks(cfg, s, e);
    }
  }

  lemma CleanupWalks(cfg: Config, s: State, e: Event)
    requires Can(cfg, s, e) && OfCleanup(e) && !e.Plan? && !e.PermitWakes? && !e.SweepEnds?
    ensures Do(cfg, s, e) == s.(cleanup := Do(cfg, s, e).cleanup) && CleanupMove(s, e, Do(cfg, s, e).cleanup)
  {
    if e.TimerWakes? {
      assert Do(cfg, s, e) == s.(cleanup := Woken);
    } else if e.ReadClock? {
      assert Do(cfg, s, e) == s.(cleanup := Locking(s.now));
    } else if e.LockMap? {
      assert Do(cfg, s, e) == s.(cleanup := Sweeping(s.cleanup.now, s.t.sessions.Keys));
    }
  }

  predicate CleanupFrame(s: State, s': State) {
    s' == s.(t := s.t.(active := s'.t.active, permit := s'.t.permit), cleanup := s'.cleanup, sweeps := s'.sweeps)
  }

  predicate CleanupMove(s: State, e: Event, c: Cleanup) {
    match c
    case Planning => e.PermitWakes? || e.SweepEnds?
    case Waiting(since, until) => e.Plan? && since == s.now && until == s.now + e.wait
    case Woken => e.TimerWakes?
    case Locking(now) => e.ReadClock? && now == s.now
    case Sweeping(now, todo) => e.LockMap? && s.cleanup.Locking? && now == s.cleanup.now && todo == s.t.sessions.Keys
    case Stopped => e.CleanupStops?
  }

  lemma ListenerLeavesCleanup(cfg: Config, s: State, e: Event)
    requires Can(cfg, s, e) && OfListener(e)
    ensures Do(cfg, s, e).cleanup == s.cleanup && Do(cfg, s, e).now == s.now
  {
    if !OfAdmission(e) && !e.ForceOne? && !e.ForceEnds? {
      IdleListenerIsQuiet(cfg, s, e);
    }
  }

  lemma SetupLeavesCleanup(cfg: Config, s: State, e: Event)
    requires Can(cfg, s, e) && OfSetup(e)
    ensures Do(cfg, s, e).cleanup == s.cleanup && Do(cfg, s, e).now == s.now
  {
    if e.OpenFails? {
      assert Do(cfg, s, e) == AfterOpenFails(s, e.id);
    } else if e.OpenSucceeds? {
      assert Do(cfg, s, e) == AfterOpens(s, e.id);
    } else if e.CheckForce? {
      assert Do(cfg, s, e) == AfterCheck(s, e.id);
    } else if e.InsertSession? {
      assert Do(cfg, s, e) == AfterInsert(s, e.id);
    }
  }

  lemma RestLeavesCleanup(cfg: Config, s: State, e: Event)
    requires Can(cfg, s, e) && !OfListener(e) && !OfSetup(e) && !OfCleanup(e) && !e.Sweep?
    ensures var s' := Do(cfg, s, e);
            && s'.cleanup == s.cleanup && s'.now == (if e.Tick? then s.now + e.ms else s.now)
            && (!e.Stamp? && !e.Die? ==> s'.t == s.t)
  {}

  /** Where the cleanup task is after a step, and what the clock shows. */
  lemma CleanupMoves(cfg: Config, s: State, e: Event)
    requires Can(cfg, s, e)
    ensures CleanupAfter(s, e, Do(cfg, s, e).cleanup)
    ensures Do(cfg, s, e).now == Clock(s, e)
  {
    if OfListener(e) {
      ListenerLeavesCleanup(cfg, s, e);
    } else if OfSetup(e) {
      SetupLeavesCleanup(cfg, s, e);
    } else if OfCleanup(e) {
      CleanupStep(cfg, s, e);
    } else if e.Sweep? {
      SweepMoves(cfg, s, e.src);
    } else {
      RestLeavesCleanup(cfg, s, e);
    }
  }

  lemma SweepMoves(cfg: Config, s: State, src: Src)
    requires Can(cfg, s, Sweep(src))
    ensures Do(cfg, s, Sweep(src)) == AfterSweepOne(cfg, s, src)
  {}

  predicate CleanupAfter(s: State, e: Event, c: Cleanup) {
    if e.Sweep? then s.cleanup.Sweeping? && c == Sweeping(s.cleanup.now, s.cleanup.todo - {e.src})
    else if OfCleanup(e) then CleanupMove(s, e, c)
    else c == s.cleanup
  }

  function Clock(s: State, e: Event): int {
    if e.Tick? then s.now + e.ms else s.now
  }

  lemma CleanupClock(cfg: Config, s: State, e: Event)
    requires StampsInv(s) && Can(cfg, s, e)
    ensures var s' := Do(cfg, s, e);
            && s'.now < U64_MAX && s.now <= s'.now
            && (s'.cleanup.Locking? ==> s'.cleanup.now <= s'.now)
            && (s'.cleanup.Sweeping? ==> s'.cleanup.now <= s'.now)
  {
    CleanupMoves(cfg, s, e);
    assert e.Tick? ==> s.now + e.ms < U64_MAX;
  }

  lemma SweepIsTimely(cfg: Config, t: Table, src: Src, at: u64, now: u64)
    requires Timely(t, now) && at <= now
    ensures Timely(SweepOne(cfg.idleSecs, t, src, at), now)
  {
    if src in t.sessions {
      TouchIsTimely(t, t.sessions[src], at, now);
    }
  }

  lemma ListenerIsTimely(cfg: Config, s: State, e: Event)
    requires Timely(s.t, s.now) && Can(cfg, s, e) && OfListener(e)
    ensures Timely(Do(cfg, s, e).t, s.now)
  {
    if e.LookUp? {
      if s.listener.src in s.t.sessions {
        TouchIsTimely(s.t, s.t.sessions[s.listener.src], s.now, s.now);
      }
    } else if e.ForceOne? {
      TouchIsTimely(s.t, s.t.sessions[e.src], s.now, s.now);
    } else {
      ListenerLeavesMap(cfg, s, e);
    }
  }

  lemma SetupIsTimely(cfg: Config, s: State, e: Event)
    requires Timely(s.t, s.now) && Can(cfg, s, e) && OfSetup(e)
    ensures Timely(Do(cfg, s, e).t, s.now)
  {
    if e.CheckForce? {
      TouchIsTimely(s.t, e.id, s.now, s.now);
      assert Do(cfg, s, e) == AfterCheck(s, e.id);
    } else if e.InsertSession? {
      InsertIsTimely(s.t, s.setups[e.id].src, e.id, s.now);
      assert Do(cfg, s, e) == AfterInsert(s, e.id);
    } else if e.OpenSucceeds? {
      assert Do(cfg, s, e) == AfterOpens(s, e.id);
    } else {
      assert Do(cfg, s, e).t.objects == s.t.objects;
    }
  }

  lemma InsertIsTimely(t: Table, src: Src, id: Id, now: u64)
    requires Timely(t, now)
    ensures Timely(Insert(t, src, id, now), now)
  {
    var t' := Insert(t, src, id, now);
    assert t'.objects == t.objects[id := Object(t, id).(joinedAt := now)] by {
      RemoveLeavesObjects(t, src);
    }
    forall i <- t'.objects ensures Stamped(t'.objects[i], now) {
      assert i == id || t'.objects[i] == t.objects[i];
    }
  }

  lemma RemoveLeavesObjects(t: Table, src: Src)
    ensures Remove(t, src).objects == t.objects
  {}

  lemma PlanRespects(cfg: Config, s: State, wait: u64)
    requires StampsInv(s) && Can(cfg, s, Plan(wait))
    ensures wait <= 5000
    ensures forall src <- s.t.sessions :: Respects(cfg, SessionAt(s.t, src), s.now, s.now + wait)
  {
    forall src <- s.t.sessions ensures Respects(cfg, SessionAt(s.t, src), s.now, s.now + wait) {
      if cfg.idleSecs > 0 {
        TestsAgree(cfg.idleSecs, SessionAt(s.t, src).last, s.now);
      }
    }
  }

  lemma StepKeepsSleep(cfg: Config, s: State, e: Event)
    requires Inv(cfg, s) && StampsInv(s) && SleepInv(cfg, s) && Can(cfg, s, e)
    ensures SleepInv(cfg, Do(cfg, s, e))
  {
    CleanupClock(cfg, s, e);
    if e.InsertSession? {
      InsertKeepsSleep(cfg, s, e.id);
    } else if e.Plan? {
      PlanRespects(cfg, s, e.wait);
      PlanKeepsSleep(cfg, s, e.wait);
    } else {
      AnyAges(cfg, s, e);
      CleanupMoves(cfg, s, e);
      AgingKeepsSleep(cfg, s, Do(cfg, s, e));
    }
  }

  lemma AnyAges(cfg: Config, s: State, e: Event)
    requires Linked(s.t) && OwnersInv(s) && Can(cfg, s, e) && !e.InsertSession?
    ensures Ages(s.t, Do(cfg, s, e).t, s.now)
    ensures Do(cfg, s, e).t.permit == s.t.permit || e.PermitWakes?
  {
    if e.Sweep? {
      SweepAges(cfg, s.t, e.src, s.cleanup.now, s.now);
    } else {
      StepAges(cfg, s, e);
    }
  }

  lemma PlanKeepsSleep(cfg: Config, s: State, wait: u64)
    requires Can(cfg, s, Plan(wait)) && wait <= 5000
    requires forall src <- s.t.sessions :: Respects(cfg, SessionAt(s.t, src), s.now, s.now + wait)
    ensures SleepInv(cfg, Do(cfg, s, Plan(wait)))
  {}

  lemma AgingKeepsSleep(cfg: Config, s: State, s': State)
    requires Linked(s.t) && StampsInv(s) && SleepInv(cfg, s) && Ages(s.t, s'.t, s.now) && s'.now >= s.now
    requires s'.cleanup == s.cleanup || !s'.cleanup.Waiting?
    requires s'.cleanup.Waiting? ==> s'.t.permit == s.t.permit
    ensures SleepInv(cfg, s')
  {}

  /** Evicting keeps the stamps of those that stay. */
  lemma SweepAges(cfg: Config, t: Table, src: Src, at: u64, now: u64)
    requires Linked(t)
    ensures Ages(t, SweepOne(cfg.idleSecs, t, src, at), now)
    ensures SweepOne(cfg.idleSecs, t, src, at).permit == t.permit
  {
    RemoveAges(t, src, now);
    if src in t.sessions {
      KillOnly(t, src, at);
    }
  }

  lemma KillOnly(t: Table, src: Src, at: u64)
    requires Linked(t) && src in t.sessions
    ensures var k := Kill(t, t.sessions[src], at);
            && k.sessions == t.sessions && k.permit == t.permit
            && forall other <- t.sessions :: other != src ==> SessionAt(k, other) == SessionAt(t, other)
  {
    assert forall other <- t.sessions :: other != src ==> t.sessions[other] != t.sessions[src];
  }

  lemma InsertKeepsSleep(cfg: Config, s: State, id: Id)
    requires SleepInv(cfg, s) && AtPc(s, id, Inserting)
    ensures SleepInv(cfg, AfterInsert(s, id))
  {}

  // ── Eviction on time ──────────────────────────────────────────────────────

  /** An ideal timer and scheduler: time does not pass while the cleanup task can run, while
      the map is locked, nor past the end of its sleep. */
  predicate OnTime(s: State, e: Event) {
    e.Tick? ==>
      || s.cleanup.Stopped?
      || (s.cleanup.Waiting? && !s.t.permit && s.now + e.ms <= s.cleanup.until && MapFree(s) && !Ending(s))
  }

  ghost predicate IdealRun(cfg: Config, s: State, es: seq<Event>)
    decreases |es|
  {
    es != [] ==> OnTime(s, es[0]) && Can(cfg, s, es[0]) && IdealRun(cfg, Do(cfg, s, es[0]), es[1..])
  }

  /** The session has been in the map no longer than it may be. */
  predicate Punctual(cfg: Config, o: Session, now: u64) {
    && (cfg.idleSecs > 0 ==> o.dead || now <= Max(o.last + 1000 * cfg.idleSecs, o.joinedAt))
    && (o.dead ==> now <= Max(o.deadAt, o.joinedAt) + 5000)
  }

  ghost predicate PromptInv(cfg: Config, s: State) {
    !s.cleanup.Stopped? ==>
      && (forall src <- s.t.sessions :: Punctual(cfg, SessionAt(s.t, src), s.now))
      && (s.cleanup.Waiting? ==> s.now <= s.cleanup.until)
  }

  lemma StepKeepsPrompt(cfg: Config, s: State, e: Event)
    requires Inv(cfg, s) && StampsInv(s) && SleepInv(cfg, s) && PromptInv(cfg, s)
    requires Can(cfg, s, e) && OnTime(s, e)
    ensures PromptInv(cfg, Do(cfg, s, e))
  {
    if e.Tick? {
      TickKeepsPrompt(cfg, s, e.ms);
    } else if e.InsertSession? {
      InsertKeepsPrompt(cfg, s, e.id);
    } else {
      AnyAges(cfg, s, e);
      PlansAhead(cfg, s, e);
      AgingKeepsPrompt(cfg, s, Do(cfg, s, e));
    }
  }

  lemma PlansAhead(cfg: Config, s: State, e: Event)
    requires Can(cfg, s, e) && !e.Tick?
    ensures var s' := Do(cfg, s, e);
            && s'.now == s.now && (s.cleanup.Stopped? ==> s'.cleanup.Stopped?)
            && (s'.cleanup.Waiting? ==> s'.cleanup == s.cleanup || s'.cleanup.until >= s.now)
  {
    CleanupMoves(cfg, s, e);
    if s.cleanup.Stopped? {
      StoppedStays(cfg, s, e);
    } else if e.Plan? {
      assert 0 <= e.wait;
    }
  }

  lemma StoppedStays(cfg: Config, s: State, e: Event)
    requires Can(cfg, s, e) && s.cleanup.Stopped?
    ensures !OfCleanup(e) && !e.Sweep?
  {}

  lemma TickKeepsPrompt(cfg: Config, s: State, ms: nat)
    requires StampsInv(s) && SleepInv(cfg, s) && PromptInv(cfg, s) && Can(cfg, s, Tick(ms)) && OnTime(s, Tick(ms))
    ensures PromptInv(cfg, Do(cfg, s, Tick(ms)))
  {}

  lemma AgingKeepsPrompt(cfg: Config, s: State, s': State)
    requires PromptInv(cfg, s) && Ages(s.t, s'.t, s.now) && s'.now == s.now
    requires Linked(s.t) && Timely(s.t, s.now)
    requires s.cleanup.Stopped? ==> s'.cleanup.Stopped?
    requires s'.cleanup.Waiting? ==> s'.cleanup == s.cleanup || s'.cleanup.until >= s.now
    ensures PromptInv(cfg, s')
  {}

  lemma InsertKeepsPrompt(cfg: Config, s: State, id: Id)
    requires Inv(cfg, s) && PromptInv(cfg, s) && AtPc(s, id, Inserting)
    ensures PromptInv(cfg, AfterInsert(s, id))
  {
    assert SetupOwns(s, id);
    InsertLeavesOthers(s.t, s.setups[id].src, id, s.now);
    JoiningKeepsPrompt(cfg, s, id, AfterInsert(s, id));
  }

  lemma JoiningKeepsPrompt(cfg: Config, s: State, id: Id, s': State)
    requires PromptInv(cfg, s) && AtPc(s, id, Inserting) && s'.cleanup == s.cleanup && s'.now == s.now
    requires var src := s.setups[id].src;
             && s'.t.sessions == s.t.sessions[src := id] && SessionAt(s'.t, src).joinedAt == s.now
             && forall other <- s.t.sessions :: other != src ==> SessionAt(s'.t, other) == SessionAt(s.t, other)
    requires Punctual(cfg, SessionAt(s'.t, s.setups[id].src), s.now)
    ensures PromptInv(cfg, s')
  {}

  lemma InsertLeavesOthers(t: Table, src: Src, id: Id, now: u64)
    requires Linked(t) && id in t.home && t.home[id] == src
    ensures var t' := Insert(t, src, id, now);
            && t'.sessions == t.sessions[src := id]
            && SessionAt(t', src).joinedAt == now
            && forall other <- t.sessions :: other != src ==> SessionAt(t', other) == SessionAt(t, other)
  {
    InsertFacts(t, src, id, now);
    assert forall other <- t.sessions :: other != src ==> t.sessions[other] != id;
  }

  lemma {:induction false} RunKeepsSleep(cfg: Config, s: State, es: seq<Event>)
    requires Inv(cfg, s) && StampsInv(s) && SleepInv(cfg, s) && Run(cfg, s, es).Some?
    ensures var s' := Run(cfg, s, es).value; Inv(cfg, s') && StampsInv(s') && SleepInv(cfg, s')
    decreases |es|
  {
    if es != [] {
      StepKeepsInv(cfg, s, es[0]);
      StepKeepsStamps(cfg, s, es[0]);
      StepKeepsSleep(cfg, s, es[0]);
      RunKeepsSleep(cfg, Do(cfg, s, es[0]), es[1..]);
    }
  }

  lemma {:induction false} RunKeepsPrompt(cfg: Config, s: State, es: seq<Event>)
    requires Inv(cfg, s) && StampsInv(s) && SleepInv(cfg, s) && PromptInv(cfg, s) && IdealRun(cfg, s, es)
    ensures Run(cfg, s, es).Some? && PromptInv(cfg, Run(cfg, s, es).value)
    decreases |es|
  {
    if es != [] {
      StepKeepsInv(cfg, s, es[0]);
      StepKeepsStamps(cfg, s, es[0]);
      StepKeepsSleep(cfg, s, es[0]);
      StepKeepsPrompt(cfg, s, es[0]);
      RunKeepsPrompt(cfg, Do(cfg, s, es[0]), es[1..]);
    }
  }

  /** Whatever the schedule, a sleeping scheduler without a stored wake-up is at most five
      seconds from waking. Its sleep, overdue or not, was to end by the idle deadline of every
      session in the map, and none of them was dead when it began. */
  lemma SleepsPastNoDeadline(cfg: Config, start: u64, es: seq<Event>, s: State, src: Src)
    requires start < U64_MAX && Run(cfg, Init(start), es) == Some(s)
    requires s.cleanup.Waiting? && !s.t.permit && src in s.t.sessions
    ensures s.cleanup.until <= s.now + 5000
    ensures s.cleanup.since < s.cleanup.until ==>
              var o := SessionAt(s.t, src);
              && (cfg.idleSecs > 0 ==> s.cleanup.until <= o.last + 1000 * cfg.idleSecs)
              && (o.dead ==> o.deadAt >= s.cleanup.since)
  {
    InitInv(cfg, start);
    RunKeepsSleep(cfg, Init(start), es);
  }

  /** With ideal timers, as long as the cleanup task runs: no live session is in the map past
      its idle deadline, and no dead one longer than five seconds after it died. (A session
      that joins late is evicted at once.) */
  lemma EvictedOnTime(cfg: Config, start: u64, es: seq<Event>, s: State, src: Src)
    requires start < U64_MAX && IdealRun(cfg, Init(start), es) && Run(cfg, Init(start), es) == Some(s)
    requires !s.cleanup.Stopped? && src in s.t.sessions
    ensures var o := SessionAt(s.t, src);
            && (cfg.idleSecs > 0 && !o.dead ==> s.now <= Max(o.last + 1000 * cfg.idleSecs, o.joinedAt))
            && (o.dead ==> s.now <= Max(o.deadAt, o.joinedAt) + 5000)
  {
    InitInv(cfg, start);
    RunKeepsPrompt(cfg, Init(start), es);
  }

  lemma {:induction false} SleepGoesOn(cfg: Config, s: State, es: seq<Event>)
    requires s.cleanup.Waiting? && Run(cfg, s, es).Some? && forall e <- es :: !OfCleanup(e)
    ensures Run(cfg, s, es).value.cleanup == s.cleanup
    decreases |es|
  {
    if es != [] {
      assert es[0] in es && forall e <- es[1..] :: e in es;
      CleanupMoves(cfg, s, es[0]);
      SleepGoesOn(cfg, Do(cfg, s, es[0]), es[1..]);
    }
  }

  /** A planned sleep lasts: while neither the permit nor the shutdown ends it, the timer fires
      exactly from `wait` milliseconds on. */
  lemma SleepLasts(cfg: Config, s: State, wait: u64, es: seq<Event>, s': State)
    requires Can(cfg, s, Plan(wait)) && Run(cfg, Do(cfg, s, Plan(wait)), es) == Some(s')
    requires forall e <- es :: !OfCleanup(e)
    ensures Can(cfg, s', TimerWakes) <==> s'.now >= s.now + wait
  {
    var s1 := Do(cfg, s, Plan(wait));
    assert s1.cleanup == Waiting(s.now, s.now + wait);
    SleepGoesOn(cfg, s1, es);
  }
}
