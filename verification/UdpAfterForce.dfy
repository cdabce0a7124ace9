/** The books after the UDP listener's force arm, which counts the sessions as closed without
    taking them out of the map: which of them are counted again, and what the gauge shows. */
module UdpAfterForce {
  import opened Machine
  import opened UdpTable
  import opened UdpPass
  import opened UdpProxy
  import opened UdpInvariants
  import opened UdpTheorems
  import opened UdpTiming
  import opened UdpEviction
  import opened UdpForce

  // ── Whom the force arm counted ────────────────────────────────────────────

  function InMap(t: Table): set<Id> {
    Image(t.sessions, t.sessions.Keys)
  }

  /** The sessions counted by the force arm in a run, on top of `before`. */
  ghost function Forced(cfg: Config, s: State, es: seq<Event>, before: set<Id>): set<Id>
    requires Run(cfg, s, es).Some?
    decreases |es|
  {
    if es == [] then before
    else Forced(cfg, Do(cfg, s, es[0]), es[1..], if es[0].ForceEnds? then before + InMap(s.t) else before)
  }

  lemma {:induction false} ForcedSnoc(cfg: Config, s: State, es: seq<Event>, m: State, before: set<Id>)
    requires Run(cfg, s, es) == Some(m) && Can(cfg, m, ForceEnds)
    ensures Run(cfg, s, es + [ForceEnds]) == Some(AfterForce(m))
    ensures Forced(cfg, s, es + [ForceEnds], before) == Forced(cfg, s, es, before) + InMap(m.t)
    decreases |es|
  {
    if es == [] {
      assert es + [ForceEnds] == [ForceEnds];
      assert Run(cfg, AfterForce(m), [ForceEnds][1..]) == Some(AfterForce(m));
    } else {
      assert (es + [ForceEnds])[1..] == es[1..] + [ForceEnds] && (es + [ForceEnds])[0] == es[0];
      ForcedSnoc(cfg, Do(cfg, s, es[0]), es[1..], m, if es[0].ForceEnds? then before + InMap(s.t) else before);
    }
  }

  /** The force arm runs once, with the map locked, and its label counts exactly whom it saw. */
  ghost predicate ForcedInv(s: State, forced: set<Id>) {
    && s.t.shutdownClosed == |forced|
    && (s.forced ==> s.listener.Exited?)
    && (!s.forced ==> forced == {})
  }

  ghost predicate MutexInv(s: State) {
    s.listener.Forcing? ==> s.force && !s.cleanup.Sweeping?
  }

  /** No step but the end of the force arm touches what it counts. */
  lemma OnlyForceCounts(cfg: Config, s: State, e: Event)
    requires Linked(s.t) && Can(cfg, s, e) && !e.ForceEnds?
    ensures Do(cfg, s, e).t.shutdownClosed == s.t.shutdownClosed && Do(cfg, s, e).forced == s.forced
  {
    if OfListener(e) {
      ListenerForcesNothing(cfg, s, e);
    } else if OfSetup(e) {
      SetupForcesNothing(cfg, s, e);
    } else if e.Sweep? {
      SweepForcesNothing(cfg.idleSecs, s.t, e.src, s.cleanup.now);
      assert Do(cfg, s, e) == AfterSweepOne(cfg, s, e.src);
    } else if OfCleanup(e) {
      CleanupStep(cfg, s, e);
    } else if e.Die? {
      KillIsQuiet(s.t, e.id, s.now);
    }
  }

  lemma ListenerForcesNothing(cfg: Config, s: State, e: Event)
    requires Linked(s.t) && Can(cfg, s, e) && OfListener(e) && !e.ForceEnds?
    ensures Do(cfg, s, e).t.shutdownClosed == s.t.shutdownClosed && Do(cfg, s, e).forced == s.forced
  {
    if e.LookUp? {
      LookUpForcesNothing(s);
      assert Do(cfg, s, e) == AfterLookUp(s);
    } else if e.AskSlot? {
      assert Grant(cfg.caps, s.t, s.listener.src, s.next).0.shutdownClosed == s.t.shutdownClosed;
    } else if e.ForceOne? {
      KillIsQuiet(s.t, s.t.sessions[e.src], s.now);
      assert Do(cfg, s, e) == AfterForceOne(s, e.src);
    } else if e.MarkPending? {
      assert Do(cfg, s, e) == AfterMark(s);
    } else if !OfAdmission(e) {
      IdleListenerIsQuiet(cfg, s, e);
    }
  }

  lemma LookUpForcesNothing(s: State)
    requires Linked(s.t) && s.listener.Got?
    ensures AfterLookUp(s).t.shutdownClosed == s.t.shutdownClosed && AfterLookUp(s).forced == s.forced
  {
    RemoveShape(s.t, s.listener.src);
  }

  lemma SetupForcesNothing(cfg: Config, s: State, e: Event)
    requires Linked(s.t) && Can(cfg, s, e) && OfSetup(e)
    ensures Do(cfg, s, e).t.shutdownClosed == s.t.shutdownClosed && Do(cfg, s, e).forced == s.forced
  {
    if e.CheckForce? {
      KillIsQuiet(s.t, e.id, s.now);
      assert Do(cfg, s, e) == AfterCheck(s, e.id);
    } else if e.InsertSession? {
      RemoveShape(s.t, s.setups[e.id].src);
      assert Do(cfg, s, e) == AfterInsert(s, e.id);
    }
  }

  lemma SweepForcesNothing(idleSecs: u64, t: Table, src: Src, now: u64)
    requires Linked(t)
    ensures SweepOne(idleSecs, t, src, now).shutdownClosed == t.shutdownClosed
    ensures SweepOne(idleSecs, t, src, now).active == t.active
  {
    RemoveShape(t, src);
    if src in t.sessions {
      KillIsQuiet(t, t.sessions[src], now);
      RemoveShape(Kill(t, t.sessions[src], now), src);
    }
  }

  lemma ExitedForGood(cfg: Config, s: State, e: Event)
    requires Linked(s.t) && Can(cfg, s, e) && s.listener.Exited?
    ensures !OfListener(e) && Do(cfg, s, e).listener == s.listener
  {
    OthersLeaveListener(cfg, s, e);
  }

  lemma StepKeepsForced(cfg: Config, s: State, e: Event, forced: set<Id>)
    requires Inv(cfg, s) && Can(cfg, s, e) && ForcedInv(s, forced)
    ensures ForcedInv(Do(cfg, s, e), if e.ForceEnds? then forced + InMap(s.t) else forced)
  {
    if e.ForceEnds? {
      assert forced + InMap(s.t) == InMap(s.t);
      ImageSize(s.t.sessions, s.t.home, s.t.sessions.Keys);
      assert |s.t.sessions.Keys| == |s.t.sessions|;
    } else {
      OnlyForceCounts(cfg, s, e);
      if s.listener.Exited? {
        ExitedForGood(cfg, s, e);
      }
    }
  }

  lemma StepKeepsMutex(cfg: Config, s: State, e: Event)
    requires Linked(s.t) && Can(cfg, s, e) && MutexInv(s)
    ensures MutexInv(Do(cfg, s, e)) && (s.force ==> Do(cfg, s, e).force)
  {
    ForceStays(cfg, s, e);
    CleanupMoves(cfg, s, e);
    if e.ForceBegins? {
      assert Do(cfg, s, e) == s.(listener := Forcing(s.t.sessions.Keys));
    } else if e.ForceOne? {
      assert Do(cfg, s, e) == AfterForceOne(s, e.src);
    } else if OfListener(e) {
      NotForcing(cfg, s, e);
    } else {
      OthersLeaveListener(cfg, s, e);
    }
  }

  lemma ForceStays(cfg: Config, s: State, e: Event)
    requires Can(cfg, s, e)
    ensures s.force ==> Do(cfg, s, e).force
  {
    if OfListener(e) && !OfAdmission(e) && !e.ForceOne? && !e.ForceEnds? {
      IdleListenerIsQuiet(cfg, s, e);
    } else if OfCleanup(e) {
      CleanupStep(cfg, s, e);
    }
  }

  lemma {:induction false} RunKeepsForced(cfg: Config, s: State, es: seq<Event>, before: set<Id>)
    requires Inv(cfg, s) && ForcedInv(s, before) && MutexInv(s) && Run(cfg, s, es).Some?
    ensures var s' := Run(cfg, s, es).value;
            Inv(cfg, s') && ForcedInv(s', Forced(cfg, s, es, before)) && MutexInv(s')
    decreases |es|
  {
    if es != [] {
      StepKeepsInv(cfg, s, es[0]);
      StepKeepsForced(cfg, s, es[0], before);
      StepKeepsMutex(cfg, s, es[0]);
      RunKeepsForced(cfg, Do(cfg, s, es[0]), es[1..], if es[0].ForceEnds? then before + InMap(s.t) else before);
    }
  }

  /** In every reachable state the label "shutdown" counts exactly the sessions the force arm
      saw, and all labels together with the replacements count too much by exactly those of
      them that are out of the map: each session in the map that the force arm did not see is
      under no label yet, each one it saw that left the map is under two. */
  lemma ForceBooks(cfg: Config, start: u64, es: seq<Event>, s: State)
    requires Run(cfg, Init(start), es) == Some(s)
    ensures var forced := Forced(cfg, Init(start), es, {});
            && s.t.shutdownClosed == |forced|
            && s.t.created + |forced - InMap(s.t)| ==
               |InMap(s.t) - forced| + s.t.idleClosed + s.t.errorClosed + s.t.shutdownClosed + s.t.replaced
  {
    InitInv(cfg, start);
    RunKeepsForced(cfg, Init(start), es, {});
    ImageSize(s.t.sessions, s.t.home, s.t.sessions.Keys);
    assert |s.t.sessions.Keys| == |s.t.sessions|;
    Overlap(Forced(cfg, Init(start), es, {}), InMap(s.t));
  }

  lemma Overlap<T>(a: set<T>, b: set<T>)
    ensures |a| + |b - a| == |b| + |a - b|
  {
    assert a == (a - b) + (a * b) && b == (b - a) + (a * b);
  }

  // ── Counted again ─────────────────────────────────────────────────────────

  function Labels(t: Table): nat {
    t.idleClosed + t.errorClosed + t.shutdownClosed
  }

  /** After `more`, the cleanup task evicts the very session of `src`, under a label. */
  ghost predicate Recounts(cfg: Config, s: State, src: Src, more: seq<Event>)
    requires src in s.t.sessions
  {
    var m := Run(cfg, s, more);
    && m.Some? && Can(cfg, m.value, Sweep(src)) && At(m.value.t, src, s.t.sessions[src])
    && Labels(Do(cfg, m.value, Sweep(src)).t) == Labels(m.value.t) + 1
    && src !in Do(cfg, m.value, Sweep(src)).t.sessions
  }

  lemma {:induction false} StoppedForGood(cfg: Config, s: State, es: seq<Event>)
    requires s.cleanup.Stopped? && Run(cfg, s, es).Some?
    ensures Run(cfg, s, es).value.cleanup.Stopped?
    decreases |es|
  {
    if es != [] {
      StoppedStays(cfg, s, es[0]);
      CleanupMoves(cfg, s, es[0]);
      StoppedForGood(cfg, Do(cfg, s, es[0]), es[1..]);
    }
  }

  /** How far the cleanup task is from a pass. */
  function ToPass(c: Cleanup, now: u64): nat {
    match c
    case Planning => 5
    case Waiting(_, until) => if now < until then 4 else 3
    case Woken => 2
    case Locking(_) => 1
    case Sweeping(_, _) => 0
    case Stopped => 0
  }

  predicate Heading(c: Cleanup, now: u64, src: Src) {
    && !c.Stopped? && now < U64_MAX
    && (c.Waiting? ==> c.until < U64_MAX)
    && (c.Sweeping? ==> src in c.todo)
  }

  ghost predicate OnTheWay(s: State, src: Src) {
    && s.listener.Exited? && src in s.t.sessions && Object(s.t, s.t.sessions[src]).dead
    && Heading(s.cleanup, s.now, src)
  }

  function NextToPass(s: State): Event {
    match s.cleanup
    case Planning => Plan(0)
    case Waiting(_, until) => if s.now < until then Tick(until - s.now) else TimerWakes
    case Woken => ReadClock
    case _ => LockMap
  }

  function WalkedTo(c: Cleanup, now: u64, keys: set<Src>): (Cleanup, u64) {
    match c
    case Planning => (Waiting(now, now), now)
    case Waiting(_, until) => if now < until && until <= U64_MAX then (c, until) else (Woken, now)
    case Woken => (Locking(now), now)
    case Locking(at) => (Sweeping(at, keys), now)
    case _ => (c, now)
  }

  function Walked(s: State): State {
    var (c, now) := WalkedTo(s.cleanup, s.now, s.t.sessions.Keys);
    s.(cleanup := c, now := now)
  }

  lemma OneNearer(cfg: Config, s: State, src: Src)
    requires OnTheWay(s, src) && !s.cleanup.Sweeping?
    ensures Can(cfg, s, NextToPass(s)) && Do(cfg, s, NextToPass(s)) == Walked(s)
  {
    if s.cleanup.Planning? {
      PlanNothing(cfg, s, src);
    } else if s.cleanup.Waiting? {
      WaitNearer(cfg, s);
    } else if s.cleanup.Woken? {
      assert Do(cfg, s, ReadClock) == s.(cleanup := Locking(s.now));
    } else {
      assert Do(cfg, s, LockMap) == s.(cleanup := Sweeping(s.cleanup.now, s.t.sessions.Keys));
    }
  }

  lemma WaitNearer(cfg: Config, s: State)
    requires s.cleanup.Waiting? && s.now < U64_MAX && s.cleanup.until < U64_MAX
    ensures Can(cfg, s, NextToPass(s))
    ensures Do(cfg, s, NextToPass(s)) ==
            if s.now < s.cleanup.until then s.(now := s.cleanup.until) else s.(cleanup := Woken)
  {}

  lemma WalkedIsNearer(c: Cleanup, now: u64, keys: set<Src>, src: Src)
    requires Heading(c, now, src) && !c.Sweeping? && src in keys
    ensures var (c', now') := WalkedTo(c, now, keys); Heading(c', now', src) && ToPass(c', now') < ToPass(c, now)
  {}

  /** A dead session in the map leaves no choice but not to sleep. */
  lemma PlanNothing(cfg: Config, s: State, src: Src)
    requires OnTheWay(s, src) && s.cleanup.Planning?
    ensures Can(cfg, s, Plan(0)) && Do(cfg, s, Plan(0)) == s.(cleanup := Waiting(s.now, s.now))
  {
    assert IsWait(cfg.idleSecs, s.t, s.now, 0);
  }

  lemma {:induction false} ReachPass(cfg: Config, s: State, src: Src) returns (es: seq<Event>, m: State)
    requires OnTheWay(s, src)
    ensures Run(cfg, s, es) == Some(m) && OnTheWay(m, src) && m.cleanup.Sweeping? && m.t == s.t
    decreases ToPass(s.cleanup, s.now)
  {
    if s.cleanup.Sweeping? {
      es, m := [], s;
    } else {
      OneNearer(cfg, s, src);
      WalkedIsNearer(s.cleanup, s.now, s.t.sessions.Keys, src);
      var rest;
      rest, m := ReachPass(cfg, Walked(s), src);
      es := [NextToPass(s)] + rest;
      RunCons(cfg, s, NextToPass(s), rest);
    }
  }

  lemma SweptAgain(cfg: Config, s: State, src: Src)
    requires Linked(s.t) && OnTheWay(s, src) && s.cleanup.Sweeping?
    ensures Can(cfg, s, Sweep(src))
    ensures var t' := Do(cfg, s, Sweep(src)).t; src !in t'.sessions && Labels(t') == Labels(s.t) + 1
  {
    SweepTakes(cfg, s, src);
    SweepForcesNothing(cfg.idleSecs, s.t, src, s.cleanup.now);
    SweepShape(cfg.idleSecs, s.t, src, s.cleanup.now);
  }

  /** Each session in the map when the force arm is through has been counted by it, and can be
      counted once more, as an eviction, exactly if the cleanup task has not stopped by then:
      whether it is past its sleep does not matter. */
  lemma ForcedSessionCountedTwice(cfg: Config, start: u64, es: seq<Event>, s: State, src: Src)
    requires start < U64_MAX && Run(cfg, Init(start), es) == Some(s) && Can(cfg, s, ForceEnds)
    requires src in s.t.sessions && s.now + 5000 < U64_MAX
    ensures Run(cfg, Init(start), es + [ForceEnds]) == Some(AfterForce(s))
    ensures s.t.sessions[src] in Forced(cfg, Init(start), es + [ForceEnds], {})
    ensures (exists more :: Recounts(cfg, AfterForce(s), src, more)) <==> !s.cleanup.Stopped?
  {
    ForcedSnoc(cfg, Init(start), es, s, {});
    ForcingState(cfg, start, es, s, src);
    if s.cleanup.Stopped? {
      NeverRecounted(cfg, AfterForce(s), src);
    } else {
      CanBeRecounted(cfg, AfterForce(s), src);
    }
  }

  lemma ForcingState(cfg: Config, start: u64, es: seq<Event>, s: State, src: Src)
    requires start < U64_MAX && Run(cfg, Init(start), es) == Some(s) && Can(cfg, s, ForceEnds)
    requires src in s.t.sessions && s.now + 5000 < U64_MAX
    ensures Linked(s.t) && (!s.cleanup.Stopped? ==> OnTheWay(AfterForce(s), src))
  {
    ForceArmCancelsAll(cfg, start, es, s, src);
    InitInv(cfg, start);
    RunKeepsSleep(cfg, Init(start), es);
    MutexHolds(cfg, start, es, s);
  }

  lemma MutexHolds(cfg: Config, start: u64, es: seq<Event>, s: State)
    requires Run(cfg, Init(start), es) == Some(s)
    ensures MutexInv(s)
  {
    InitInv(cfg, start);
    RunKeepsForced(cfg, Init(start), es, {});
  }

  lemma NeverRecounted(cfg: Config, s: State, src: Src)
    requires s.cleanup.Stopped? && src in s.t.sessions
    ensures forall more :: !Recounts(cfg, s, src, more)
  {
    forall more ensures !Recounts(cfg, s, src, more) {
      if Run(cfg, s, more).Some? {
        StoppedForGood(cfg, s, more);
      }
    }
  }

  lemma CanBeRecounted(cfg: Config, s: State, src: Src)
    requires Linked(s.t) && OnTheWay(s, src)
    ensures exists more :: Recounts(cfg, s, src, more)
  {
    var more, m := ReachPass(cfg, s, src);
    SweptAgain(cfg, m, src);
    assert Recounts(cfg, s, src, more);
  }

  // ── The gauge ─────────────────────────────────────────────────────────────

  /** No set-up task is past its last look at the force token. */
  predicate NoneInserting(s: State) {
    forall id <- s.setups :: s.setups[id].pc != Inserting
  }

  ghost predicate AllDead(t: Table) {
    forall src <- t.sessions :: Object(t, t.sessions[src]).dead
  }

  /** Nothing is left but to evict the dead. */
  ghost predicate WoundDown(s: State) {
    && s.listener.Exited? && s.force && NoneInserting(s) && AllDead(s.t) && s.t.active == 0
    && (s.cleanup.Sweeping? ==> s.t.sessions.Keys <= s.cleanup.todo)
  }

  lemma GaugeKept(cfg: Config, s: State, e: Event)
    requires Linked(s.t) && Can(cfg, s, e) && !OfListener(e) && !e.InsertSession? && !e.SweepEnds?
    ensures Do(cfg, s, e).t.active == s.t.active
  {
    if e.Sweep? {
      SweepForcesNothing(cfg.idleSecs, s.t, e.src, s.cleanup.now);
      assert Do(cfg, s, e) == AfterSweepOne(cfg, s, e.src);
    } else if e.CheckForce? {
      KillIsQuiet(s.t, e.id, s.now);
    } else if e.Die? {
      KillIsQuiet(s.t, e.id, s.now);
    }
  }

  lemma NoneComesToInsert(cfg: Config, s: State, e: Event)
    requires Linked(s.t) && Can(cfg, s, e) && !OfListener(e) && s.force && NoneInserting(s)
    ensures !e.InsertSession? && NoneInserting(Do(cfg, s, e))
  {
    if OfSetup(e) {
      SetupShape(cfg, s, e);
      if !e.SetupEnds? {
        NextPc(cfg, s, e);
      }
    } else {
      SettledByRest(cfg, s, e);
    }
  }

  lemma NextPc(cfg: Config, s: State, e: Event)
    requires Can(cfg, s, e) && OfSetup(e) && s.force && !e.SetupEnds?
    ensures Do(cfg, s, e).setups[e.id].pc != Inserting
  {
    if e.CheckForce? {
      assert Do(cfg, s, e) == AfterCheck(s, e.id);
    } else if e.InsertSession? {
      assert Do(cfg, s, e) == AfterInsert(s, e.id);
    }
  }

  lemma AgingKeepsDead(s: State, t': Table)
    requires AllDead(s.t) && Ages(s.t, t', s.now)
    ensures AllDead(t') && t'.sessions.Keys <= s.t.sessions.Keys
  {}

  lemma StepKeepsWoundDown(cfg: Config, s: State, e: Event)
    requires Linked(s.t) && OwnersInv(s) && WoundDown(s) && Can(cfg, s, e)
    ensures WoundDown(Do(cfg, s, e))
  {
    ExitedForGood(cfg, s, e);
    NoneComesToInsert(cfg, s, e);
    ForceStays(cfg, s, e);
    AnyAges(cfg, s, e);
    AgingKeepsDead(s, Do(cfg, s, e).t);
    if e.SweepEnds? {
      assert s.t.sessions.Keys == {};
      assert Do(cfg, s, e) == AfterSweep(s);
    } else {
      GaugeKept(cfg, s, e);
      TodoCovers(cfg, s, e);
    }
  }

  lemma TodoCovers(cfg: Config, s: State, e: Event)
    requires Linked(s.t) && WoundDown(s) && Can(cfg, s, e) && !OfListener(e) && !e.InsertSession?
    requires Do(cfg, s, e).t.sessions.Keys <= s.t.sessions.Keys
    ensures var s' := Do(cfg, s, e); s'.cleanup.Sweeping? ==> s'.t.sessions.Keys <= s'.cleanup.todo
  {
    CleanupMoves(cfg, s, e);
    if e.Sweep? && e.src in s.t.sessions {
      SweepTakes(cfg, s, e.src);
    }
  }

  lemma {:induction false} RunKeepsWoundDown(cfg: Config, s: State, es: seq<Event>)
    requires Inv(cfg, s) && WoundDown(s) && Run(cfg, s, es).Some?
    ensures WoundDown(Run(cfg, s, es).value)
    decreases |es|
  {
    if es != [] {
      StepKeepsInv(cfg, s, es[0]);
      StepKeepsWoundDown(cfg, s, es[0]);
      RunKeepsWoundDown(cfg, Do(cfg, s, es[0]), es[1..]);
    }
  }

  /** The gauge the force arm set to zero can be seen at another value later exactly if a set-up
      task was past its look at the force token when the arm was through. A pass that follows
      does no harm. */
  lemma GaugeStaysZero(cfg: Config, start: u64, es: seq<Event>, s: State)
    requires Run(cfg, Init(start), es) == Some(s) && Can(cfg, s, ForceEnds)
    ensures (exists more :: ShowsAgain(cfg, AfterForce(s), more)) <==> !NoneInserting(s)
  {
    InitInv(cfg, start);
    RunKeepsForced(cfg, Init(start), es, {});
    var s1 := AfterForce(s);
    if NoneInserting(s) {
      forall src <- s.t.sessions ensures Object(s.t, s.t.sessions[src]).dead {
        ForceArmCancelsAll(cfg, start, es, s, src);
      }
      StepKeepsInv(cfg, s, ForceEnds);
      NeverShownAgain(cfg, s1);
    } else {
      var id :| id in s.setups && s.setups[id].pc == Inserting;
      InsertShows(cfg, s1, id);
    }
  }

  ghost predicate ShowsAgain(cfg: Config, s: State, more: seq<Event>) {
    Run(cfg, s, more).Some? && Run(cfg, s, more).value.t.active != 0
  }

  lemma NeverShownAgain(cfg: Config, s: State)
    requires Inv(cfg, s) && WoundDown(s)
    ensures forall more :: !ShowsAgain(cfg, s, more)
  {
    forall more ensures !ShowsAgain(cfg, s, more) {
      if Run(cfg, s, more).Some? {
        RunKeepsWoundDown(cfg, s, more);
      }
    }
  }

  lemma InsertShows(cfg: Config, s: State, id: Id)
    requires AtPc(s, id, Inserting) && MapFree(s)
    ensures exists more :: ShowsAgain(cfg, s, more)
  {
    RunCons(cfg, s, InsertSession(id), []);
    assert [InsertSession(id)] + [] == [InsertSession(id)];
    assert Run(cfg, AfterInsert(s, id), []) == Some(AfterInsert(s, id));
    assert ShowsAgain(cfg, s, [InsertSession(id)]);
  }
}
