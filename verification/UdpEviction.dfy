/** An eviction pass of the UDP proxy's cleanup task does its work: the scheduler skips its
    sleep exactly when some session is to be evicted, and a pass planned then evicts it, unless
    traffic refreshed it meanwhile. */
module UdpEviction {
  import opened Machine
  import opened UdpTable
  import opened UdpPass
  import opened UdpProxy
  import opened UdpInvariants
  import opened UdpTiming

  /** The scheduler's answer is unique, and it is "at once" exactly when the eviction test
      would hold for some session: for every clock value short of the largest, saturation
      included. */
  lemma NoWaitIffExpired(idleSecs: u64, t: Table, now: u64, wait: u64)
    requires now < U64_MAX && IsWait(idleSecs, t, now, wait)
    ensures wait == 0 <==> exists src :: src in t.sessions && Expired(idleSecs, t, src, now)
  {
    if idleSecs > 0 {
      forall src <- t.sessions
        ensures TimeToIdle(idleSecs, Object(t, t.sessions[src]).last, now) == 0 <==>
                Stale(idleSecs, Object(t, t.sessions[src]).last, now)
      {
        TestsAgree(idleSecs, Object(t, t.sessions[src]).last, now);
      }
    }
    if src :| src in t.sessions && Object(t, t.sessions[src]).dead {
      assert Expired(idleSecs, t, src, now);
    }
  }

  /** The wait in exact numbers, no session being dead and the clock five seconds short of its
      ceiling: the time to the first idle deadline, but at most five seconds. */
  lemma WaitInMilliseconds(idleSecs: u64, t: Table, now: u64, wait: u64)
    requires now + 5000 <= U64_MAX && IsWait(idleSecs, t, now, wait)
    requires forall src <- t.sessions :: !Object(t, t.sessions[src]).dead
    ensures wait <= 5000 && (idleSecs == 0 ==> wait == 5000)
    ensures idleSecs > 0 ==>
              && (forall src <- t.sessions ::
                    now + wait <= Max(now, Object(t, t.sessions[src]).last + 1000 * idleSecs))
              && (wait < 5000 ==>
                    exists src :: (src in t.sessions
                                   && now + wait == Max(now, Object(t, t.sessions[src]).last + 1000 * idleSecs)))
  {
    if idleSecs > 0 {
      forall src <- t.sessions
        ensures TimeToIdle(idleSecs, Object(t, t.sessions[src]).last, now) ==
                Max(0, Min(Object(t, t.sessions[src]).last + 1000 * idleSecs, U64_MAX) - now)
      {
        TestsAgree(idleSecs, Object(t, t.sessions[src]).last, now);
      }
    }
  }

  lemma WaitIsUnique(idleSecs: u64, t: Table, now: u64, a: u64, b: u64)
    requires IsWait(idleSecs, t, now, a) && IsWait(idleSecs, t, now, b)
    ensures a == b
  {}

  // ── One pass ──────────────────────────────────────────────────────────────

  predicate At(t: Table, src: Src, id: Id) {
    src in t.sessions && t.sessions[src] == id
  }

  /** No set-up can put `id` into the map (again). */
  ghost predicate Settled(s: State, id: Id) {
    id in s.t.home && !HeldBySetup(s, id) && !HeldByListener(s, id)
  }

  lemma MapIsSettled(s: State, src: Src)
    requires Linked(s.t) && OwnersInv(s) && src in s.t.sessions
    ensures Settled(s, s.t.sessions[src])
  {
    var id := s.t.sessions[src];
    if id in s.setups {
      assert SetupOwns(s, id);
    }
  }

  lemma SettledStays(cfg: Config, s: State, e: Event, id: Id)
    requires Linked(s.t) && OwnersInv(s) && Can(cfg, s, e) && Settled(s, id)
    ensures Settled(Do(cfg, s, e), id)
  {
    assert id < s.next;
    if OfListener(e) {
      SettledByListener(cfg, s, e, id);
    } else if OfSetup(e) {
      SettledBySetup(cfg, s, e, id);
    } else {
      SettledByRest(cfg, s, e);
    }
  }

  lemma SettledByRest(cfg: Config, s: State, e: Event)
    requires Linked(s.t) && Can(cfg, s, e) && !OfListener(e) && !OfSetup(e)
    ensures var s' := Do(cfg, s, e);
            s'.t.home == s.t.home && s'.setups == s.setups && s'.listener == s.listener
  {
    if e.Sweep? {
      SweepLeft(cfg.idleSecs, s.t, e.src, s.cleanup.now);
      SweepMoves(cfg, s, e.src);
    } else if OfCleanup(e) {
      CleanupStep(cfg, s, e);
    } else if e.Die? {
      KillIsQuiet(s.t, e.id, s.now);
      assert Do(cfg, s, e) == s.(t := Kill(s.t, e.id, s.now));
    } else if e.Stamp? {
      assert Do(cfg, s, e) == s.(t := Touch(s.t, e.id, s.now));
    } else {
      TokensAndClock(cfg, s, e);
    }
  }

  lemma TokensAndClock(cfg: Config, s: State, e: Event)
    requires Can(cfg, s, e) && (e.Tick? || e.RequestStop? || e.RequestForce?)
    ensures var s' := Do(cfg, s, e); s' == s.(now := s'.now, stop := s'.stop, force := s'.force)
  {}

  lemma SettledByListener(cfg: Config, s: State, e: Event, id: Id)
    requires Linked(s.t) && Can(cfg, s, e) && OfListener(e) && Settled(s, id) && id < s.next
    ensures Settled(Do(cfg, s, e), id)
  {
    if e.AskSlot? {
      GrantAnswers(cfg, s);
      SettledByAnswer(s, Grant(cfg.caps, s.t, s.listener.src, s.next), id);
    } else if e.Spawn? {
    } else {
      ListenerLeavesHomes(cfg, s, e);
    }
  }

  lemma SettledByAnswer(s: State, answer: (Table, bool), id: Id)
    requires s.listener.Marked? && Answers(s, answer) && Settled(s, id) && id < s.next
    ensures Settled(AfterAsk(s, answer), id)
  {}

  lemma ListenerLeavesHomes(cfg: Config, s: State, e: Event)
    requires Linked(s.t) && Can(cfg, s, e) && OfListener(e) && !e.AskSlot? && !e.Spawn?
    ensures var s' := Do(cfg, s, e);
            s'.t.home == s.t.home && s'.setups == s.setups && !s'.listener.Granted?
  {
    if e.LookUp? {
      LookupLeft(s.t, s.listener.src, s.now);
      assert Do(cfg, s, e) == AfterLookUp(s);
    } else if e.ForceOne? {
      KillIsQuiet(s.t, s.t.sessions[e.src], s.now);
      assert Do(cfg, s, e) == AfterForceOne(s, e.src);
    } else if OfAdmission(e) || e.ForceEnds? {
      MarkingLeavesHomes(cfg, s, e);
    } else {
      IdleListenerIsQuiet(cfg, s, e);
    }
  }

  lemma MarkingLeavesHomes(cfg: Config, s: State, e: Event)
    requires Can(cfg, s, e) && (e.MarkPending? || e.ClearMark? || e.ForceEnds?)
    ensures var s' := Do(cfg, s, e);
            s'.t.home == s.t.home && s'.setups == s.setups && !s'.listener.Granted?
  {
    if e.MarkPending? {
      assert Do(cfg, s, e) == AfterMark(s);
    } else if e.ClearMark? {
      assert Do(cfg, s, e) == AfterClearMark(s);
    } else {
      assert Do(cfg, s, e) == AfterForce(s);
    }
  }

  lemma SettledBySetup(cfg: Config, s: State, e: Event, id: Id)
    requires Linked(s.t) && Can(cfg, s, e) && OfSetup(e) && Settled(s, id)
    ensures Settled(Do(cfg, s, e), id)
  {
    if e.InsertSession? {
      SettledByInsert(s, e.id, id);
    } else if e.CheckForce? {
      KillIsQuiet(s.t, e.id, s.now);
    }
  }

  lemma SettledByInsert(s: State, other: Id, id: Id)
    requires Linked(s.t) && AtPc(s, other, Inserting) && Settled(s, id)
    ensures Settled(AfterInsert(s, other), id)
  {
    InsertFacts(s.t, s.setups[other].src, other, s.now);
  }

  /** A session in the map after a step was there before, and aged. */
  lemma StaysOnlyByAging(cfg: Config, s: State, e: Event, src: Src, id: Id)
    requires Linked(s.t) && OwnersInv(s) && Can(cfg, s, e) && Settled(s, id)
    requires At(Do(cfg, s, e).t, src, id)
    ensures At(s.t, src, id) && Aged(Object(s.t, id), Object(Do(cfg, s, e).t, id), s.now)
  {
    if e.InsertSession? {
      assert SetupOwns(s, e.id);
      assert Do(cfg, s, e) == AfterInsert(s, e.id);
      StaysBesideInsert(s.t, s.setups[e.id].src, e.id, s.now, src, id);
    } else {
      AnyAges(cfg, s, e);
      StaysByAging(s.t, Do(cfg, s, e).t, s.now, src, id);
    }
  }

  lemma StaysBesideInsert(t: Table, put: Src, new': Id, now: u64, src: Src, id: Id)
    requires Linked(t) && new' in t.home && t.home[new'] == put && id != new'
    requires At(Insert(t, put, new', now), src, id)
    ensures At(t, src, id) && Object(Insert(t, put, new', now), id) == Object(t, id)
  {
    InsertLeavesOthers(t, put, new', now);
  }

  lemma StaysByAging(t: Table, t': Table, now: u64, src: Src, id: Id)
    requires Ages(t, t', now) && At(t', src, id)
    ensures At(t, src, id) && Aged(Object(t, id), Object(t', id), now)
  {}

  lemma SweepTakes(cfg: Config, s: State, src: Src)
    requires Linked(s.t) && Can(cfg, s, Sweep(src)) && src in s.t.sessions
    requires Expired(cfg.idleSecs, s.t, src, s.cleanup.now)
    ensures src !in AfterSweepOne(cfg, s, src).t.sessions
  {
    SweepLeft(cfg.idleSecs, s.t, src, s.cleanup.now);
  }

  lemma SweepsCounted(cfg: Config, s: State, e: Event)
    requires Can(cfg, s, e)
    ensures Do(cfg, s, e).sweeps == s.sweeps + if e.SweepEnds? then 1 else 0
  {
    if OfListener(e) && !OfAdmission(e) && !e.ForceOne? && !e.ForceEnds? {
      IdleListenerIsQuiet(cfg, s, e);
    }
  }

  /** What is hunted: session `id` of `src`, dead or stale since `since`. */
  datatype Prey = Prey(src: Src, id: Id, o: Session, since: u64, sweeps: nat)

  predicate Due(cfg: Config, p: Prey) {
    p.o.dead || Stale(cfg.idleSecs, p.o.last, p.since)
  }

  predicate Refreshed(p: Prey, o: Session) {
    !p.o.dead && o.last > p.o.last
  }

  predicate Unchanged(p: Prey, o: Session) {
    if p.o.dead then o.dead else o.last == p.o.last
  }

  predicate Closing(p: Prey, s: State) {
    && s.sweeps == p.sweeps
    && (s.cleanup.Locking? ==> s.cleanup.now >= p.since)
    && (s.cleanup.Sweeping? ==> s.cleanup.now >= p.since && p.src in s.cleanup.todo)
  }

  ghost predicate Hunted(p: Prey, s: State) {
    && Settled(s, p.id) && s.now >= p.since
    && (At(s.t, p.src, p.id) && !Refreshed(p, Object(s.t, p.id)) ==>
          Unchanged(p, Object(s.t, p.id)) && Closing(p, s))
  }

  lemma HuntGoesOn(cfg: Config, p: Prey, s: State, e: Event)
    requires Inv(cfg, s) && StampsInv(s) && Can(cfg, s, e) && Due(cfg, p) && Hunted(p, s)
    ensures Hunted(p, Do(cfg, s, e))
  {
    var s' := Do(cfg, s, e);
    SettledStays(cfg, s, e, p.id);
    CleanupMoves(cfg, s, e);
    if At(s'.t, p.src, p.id) {
      StaysOnlyByAging(cfg, s, e, p.src, p.id);
      AgesOn(cfg, p, s, Object(s.t, p.id), Object(s'.t, p.id));
      if !Refreshed(p, Object(s'.t, p.id)) {
        PhaseGoesOn(cfg, p, s, e);
      }
    }
  }

  lemma AgesOn(cfg: Config, p: Prey, s: State, o: Session, o': Session)
    requires Due(cfg, p) && s.now >= p.since && Aged(o, o', s.now)
    requires Refreshed(p, o) || Unchanged(p, o)
    ensures Refreshed(p, o) ==> Refreshed(p, o')
    ensures Refreshed(p, o') || Unchanged(p, o')
  {}

  lemma PhaseGoesOn(cfg: Config, p: Prey, s: State, e: Event)
    requires Linked(s.t) && Can(cfg, s, e) && Due(cfg, p) && s.now >= p.since
    requires At(s.t, p.src, p.id) && Unchanged(p, Object(s.t, p.id)) && Closing(p, s)
    requires At(Do(cfg, s, e).t, p.src, p.id)
    ensures Closing(p, Do(cfg, s, e))
  {
    CleanupMoves(cfg, s, e);
    SweepsCounted(cfg, s, e);
    if e.Sweep? && e.src == p.src {
      SweepTakes(cfg, s, p.src);
    }
  }

  lemma {:induction false} HuntRuns(cfg: Config, p: Prey, s: State, es: seq<Event>)
    requires Inv(cfg, s) && StampsInv(s) && Due(cfg, p) && Hunted(p, s) && Run(cfg, s, es).Some?
    ensures Hunted(p, Run(cfg, s, es).value)
    decreases |es|
  {
    if es != [] {
      StepKeepsInv(cfg, s, es[0]);
      StepKeepsStamps(cfg, s, es[0]);
      HuntGoesOn(cfg, p, s, es[0]);
      HuntRuns(cfg, p, Do(cfg, s, es[0]), es[1..]);
    }
  }

  /** Whenever a session is dead or past its idle deadline before a pass has begun, then once
      a pass has completed, whatever else happened, the session has left the map, or it was
      alive and has been refreshed. */
  lemma PassEvicts(cfg: Config, s: State, src: Src, es: seq<Event>, s': State)
    requires Inv(cfg, s) && StampsInv(s) && !s.cleanup.Locking? && !s.cleanup.Sweeping?
    requires src in s.t.sessions && Expired(cfg.idleSecs, s.t, src, s.now)
    requires Run(cfg, s, es) == Some(s') && s'.sweeps > s.sweeps
    ensures var id := s.t.sessions[src];
            At(s'.t, src, id) ==> !Object(s.t, id).dead && Object(s'.t, id).last > Object(s.t, id).last
  {
    var id := s.t.sessions[src];
    MapIsSettled(s, src);
    HuntRuns(cfg, Prey(src, id, Object(s.t, id), s.now, s.sweeps), s, es);
  }

  // ── Never early ───────────────────────────────────────────────────────────

  /** No stamp is lost or falls back. */
  ghost predicate Kept(t: Table, t': Table, now: u64) {
    forall id <- t.objects ::
      id in t'.objects && (t'.objects[id].last == t.objects[id].last || t'.objects[id].last == now)
  }

  lemma KeptByTouch(t: Table, id: Id, now: u64)
    ensures Kept(t, Touch(t, id, now), now) && forall at: u64 :: Kept(t, Kill(t, id, at), now)
  {}

  lemma KeptByLookup(t: Table, src: Src, now: u64)
    ensures Kept(t, Lookup(t, src, now).0, now)
  {
    if src in t.sessions {
      RemoveLeavesObjects(t, src);
      KeptByTouch(t, t.sessions[src], now);
    }
  }

  lemma KeptBySweep(cfg: Config, t: Table, src: Src, at: u64, now: u64)
    ensures Kept(t, SweepOne(cfg.idleSecs, t, src, at), now)
  {
    if src in t.sessions {
      RemoveLeavesObjects(t, src);
      RemoveLeavesObjects(Kill(t, t.sessions[src], at), src);
      KeptByTouch(t, t.sessions[src], now);
    }
  }

  lemma KeptBySetup(cfg: Config, s: State, e: Event)
    requires Can(cfg, s, e) && OfSetup(e)
    ensures Kept(s.t, Do(cfg, s, e).t, s.now)
  {
    if e.CheckForce? {
      KillIsQuiet(s.t, e.id, s.now);
      KeptByTouch(s.t, e.id, s.now);
      assert Do(cfg, s, e) == AfterCheck(s, e.id);
    } else if e.InsertSession? {
      KeptByInsert(s.t, s.setups[e.id].src, e.id, s.now);
      assert Do(cfg, s, e) == AfterInsert(s, e.id);
    } else if e.OpenFails? {
      assert Do(cfg, s, e) == AfterOpenFails(s, e.id);
    }
  }

  lemma KeptByInsert(t: Table, src: Src, id: Id, now: u64)
    ensures Kept(t, Insert(t, src, id, now), now)
  {
    RemoveLeavesObjects(t, src);
  }

  lemma KeptByListener(cfg: Config, s: State, e: Event)
    requires Can(cfg, s, e) && OfListener(e)
    ensures Kept(s.t, Do(cfg, s, e).t, s.now)
  {
    if e.LookUp? {
      KeptByLookup(s.t, s.listener.src, s.now);
    } else if e.ForceOne? {
      KeptByTouch(s.t, s.t.sessions[e.src], s.now);
    } else {
      ListenerLeavesMap(cfg, s, e);
    }
  }

  lemma StepKeepsStampsUp(cfg: Config, s: State, e: Event)
    requires Can(cfg, s, e)
    ensures Kept(s.t, Do(cfg, s, e).t, s.now)
  {
    if OfListener(e) {
      KeptByListener(cfg, s, e);
    } else if OfSetup(e) {
      KeptBySetup(cfg, s, e);
    } else if e.Sweep? {
      KeptBySweep(cfg, s.t, e.src, s.cleanup.now, s.now);
    } else if OfCleanup(e) {
      CleanupStep(cfg, s, e);
    } else if e.Stamp? {
      KeptByTouch(s.t, e.id, s.now);
    } else if e.Die? {
      KeptByTouch(s.t, e.id, s.now);
    } else {
      RestLeavesCleanup(cfg, s, e);
    }
  }

  lemma {:induction false} StampsNeverFall(cfg: Config, s: State, es: seq<Event>, id: Id)
    requires StampsInv(s) && Run(cfg, s, es).Some? && id in s.t.objects
    ensures StampsInv(Run(cfg, s, es).value) && id in Run(cfg, s, es).value.t.objects
    ensures Run(cfg, s, es).value.t.objects[id].last >= s.t.objects[id].last
    decreases |es|
  {
    if es != [] {
      StepKeepsStampsUp(cfg, s, es[0]);
      StepKeepsStamps(cfg, s, es[0]);
      StampsNeverFall(cfg, Do(cfg, s, es[0]), es[1..], id);
    }
  }

  /** Is `e` activity of session `id`: it is opened, the listener forwards to it, or a relay
      task moves a datagram? */
  predicate Activity(s: State, e: Event, id: Id) {
    || e == Stamp(id) || e == OpenSucceeds(id)
    || (e.LookUp? && s.listener.Got? && At(s.t, s.listener.src, id) && !Object(s.t, id).dead)
  }

  /** A session is evicted as idle only by a pass that read its clock a whole idle time after
      each of the session's activities, however the tasks are scheduled. */
  lemma IdleOnlyAfterSilence(cfg: Config, s: State, e: Event, id: Id, es: seq<Event>, s': State, src: Src)
    requires StampsInv(s) && Can(cfg, s, e) && Activity(s, e, id) && Run(cfg, Do(cfg, s, e), es) == Some(s')
    requires Can(cfg, s', Sweep(src)) && At(s'.t, src, id)
    requires Do(cfg, s', Sweep(src)).t.idleClosed > s'.t.idleClosed
    ensures cfg.idleSecs > 0 && s'.cleanup.now >= s.now + 1000 * cfg.idleSecs
  {
    var s1 := Do(cfg, s, e);
    assert id in s1.t.objects && s1.t.objects[id].last == s.now by {
      ActivityStamps(cfg, s, e, id);
    }
    StepKeepsStamps(cfg, s, e);
    StampsNeverFall(cfg, s1, es, id);
    IdleMeansStale(cfg, s'.t, src, s'.cleanup.now);
    TestsAgree(cfg.idleSecs, Object(s'.t, id).last, s'.cleanup.now);
  }

  lemma ActivityStamps(cfg: Config, s: State, e: Event, id: Id)
    requires Can(cfg, s, e) && Activity(s, e, id)
    ensures var t' := Do(cfg, s, e).t; id in t'.objects && t'.objects[id].last == s.now
  {}

  lemma IdleMeansStale(cfg: Config, t: Table, src: Src, at: u64)
    requires src in t.sessions && SweepOne(cfg.idleSecs, t, src, at).idleClosed > t.idleClosed
    ensures Stale(cfg.idleSecs, Object(t, t.sessions[src]).last, at)
  {}

  // ── The loop and the steps ────────────────────────────────────────────────

  function Sweeps(order: seq<Src>): seq<Event> {
    if order == [] then [] else [Sweep(order[0])] + Sweeps(order[1..])
  }

  function SweptState(cfg: Config, s: State, order: seq<Src>): State
    requires s.cleanup.Sweeping?
  {
    s.(t := Pass(cfg.idleSecs, s.t, order, s.cleanup.now), cleanup := Sweeping(s.cleanup.now, {}))
  }

  lemma {:induction false} SweepsRun(cfg: Config, s: State, order: seq<Src>)
    requires s.cleanup.Sweeping? && Distinct(order) && Named(order) == s.cleanup.todo
    ensures Run(cfg, s, Sweeps(order)) == Some(SweptState(cfg, s, order))
    decreases |order|
  {
    if order == [] {
      assert s.cleanup.todo == {};
    } else {
      assert order[0] in s.cleanup.todo;
      RestIsNamed(order, s.cleanup.todo);
      RunCons(cfg, s, Sweep(order[0]), Sweeps(order[1..]));
      SweepsRun(cfg, AfterSweepOne(cfg, s, order[0]), order[1..]);
    }
  }

  lemma RestIsNamed(order: seq<Src>, todo: set<Src>)
    requires order != [] && Distinct(order) && Named(order) == todo
    ensures Distinct(order[1..]) && Named(order[1..]) == todo - {order[0]}
  {
    assert order == [order[0]] + order[1..];
    assert order[0] !in order[1..];
  }

  /** The `retain` loop is one run of the step system: lock, look at every session in the loop's
      order, unlock. What is proved of the steps holds of the loop. */
  lemma RetainIsARun(cfg: Config, s: State, order: seq<Src>)
    requires s.cleanup.Locking? && !s.listener.Forcing? && Distinct(order) && Named(order) == s.t.sessions.Keys
    ensures var t' := Pass(cfg.idleSecs, s.t, order, s.cleanup.now);
            Run(cfg, s, [LockMap] + (Sweeps(order) + [SweepEnds])) ==
            Some(s.(t := t'.(active := |t'.sessions|), cleanup := Planning, sweeps := s.sweeps + 1))
  {
    var s1 := s.(cleanup := Sweeping(s.cleanup.now, s.t.sessions.Keys));
    LockStep(cfg, s);
    RunCons(cfg, s, LockMap, Sweeps(order) + [SweepEnds]);
    LockedRun(cfg, s1, order);
  }

  lemma LockStep(cfg: Config, s: State)
    requires s.cleanup.Locking? && !s.listener.Forcing?
    ensures Can(cfg, s, LockMap) && Do(cfg, s, LockMap) == s.(cleanup := Sweeping(s.cleanup.now, s.t.sessions.Keys))
  {}

  lemma LockedRun(cfg: Config, s: State, order: seq<Src>)
    requires s.cleanup.Sweeping? && Distinct(order) && Named(order) == s.cleanup.todo
    ensures Run(cfg, s, Sweeps(order) + [SweepEnds]) == Some(AfterSweep(SweptState(cfg, s, order)))
  {
    SweepsRun(cfg, s, order);
    RunJoin(cfg, s, Sweeps(order), SweptState(cfg, s, order), [SweepEnds]);
    SweepEndsRun(cfg, SweptState(cfg, s, order));
  }

  lemma SweepEndsRun(cfg: Config, s: State)
    requires s.cleanup.Sweeping? && s.cleanup.todo == {}
    ensures Run(cfg, s, [SweepEnds]) == Some(AfterSweep(s))
  {
    assert Run(cfg, AfterSweep(s), [SweepEnds][1..]) == Some(AfterSweep(s));
  }
}
