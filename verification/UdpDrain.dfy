/** When the UDP listener's drain test may be trusted. The test reads the map and then, in a
    second critical section, `pending`; a set-up task can insert its session and clear its mark
    in between. */
module UdpDrain {
  import opened Machine
  import opened UdpTable
  import opened UdpProxy
  import opened UdpInvariants
  import opened UdpTheorems

  /** Some set-up task under way can still reach its insert. */
  predicate CanStillInsert(s: State) {
    exists id <- s.setups :: s.setups[id].pc == Inserting || (!s.force && s.setups[id].pc != Clearing)
  }

  /** Nothing is in the map and nothing can get there. */
  ghost predicate Sealed(s: State) {
    && s.t.sessions == map[] && !CanStillInsert(s)
    && (s.listener.DrainSecond? || s.listener.Exited?)
  }

  // ── Sound if no set-up can still insert ───────────────────────────────────

  lemma SealedStep(cfg: Config, s: State, e: Event)
    requires Inv(cfg, s) && Sealed(s) && Can(cfg, s, e) && !e.DrainReadsPending?
    ensures Sealed(Do(cfg, s, e)) && Do(cfg, s, e).listener == s.listener
  {
    if OfListener(e) {
      NoListenerStep(cfg, s, e);
    } else if OfSetup(e) {
      SealedSetup(cfg, s, e);
    } else if e.Sweep? {
      assert SweepOne(cfg.idleSecs, s.t, e.src, s.cleanup.now) == s.t;
    } else if e.Die? {
      KillIsQuiet(s.t, e.id, s.now);
    }
  }

  lemma NoListenerStep(cfg: Config, s: State, e: Event)
    requires Can(cfg, s, e) && OfListener(e) && !e.DrainReadsPending?
    ensures !s.listener.DrainSecond? && !s.listener.Exited?
  {}

  lemma SealedSetup(cfg: Config, s: State, e: Event)
    requires Sealed(s) && Can(cfg, s, e) && OfSetup(e)
    ensures Sealed(Do(cfg, s, e)) && Do(cfg, s, e).listener == s.listener
  {
    var u := s.setups[e.id].pc;
    assert u != Inserting && (s.force || u == Clearing);
    var s' := Do(cfg, s, e);
    if e.CheckForce? {
      KillIsQuiet(s.t, e.id, s.now);
    }
    SealedByPc(s, e.id, s');
  }

  lemma SealedByPc(s: State, id: Id, s': State)
    requires Sealed(s) && id in s.setups && s'.listener == s.listener && s'.force == s.force
    requires s'.t.sessions == s.t.sessions
    requires s'.setups.Keys <= s.setups.Keys && forall i <- s'.setups :: i != id ==> s'.setups[i] == s.setups[i]
    requires id in s'.setups ==> s'.setups[id].pc != Inserting && (s.force || s'.setups[id].pc == Clearing)
    ensures Sealed(s')
  {}

  lemma {:induction false} SealedRun(cfg: Config, s: State, es: seq<Event>)
    requires Inv(cfg, s) && Sealed(s) && Run(cfg, s, es).Some?
    requires forall e <- es :: !e.DrainReadsPending?
    ensures var s' := Run(cfg, s, es).value; Inv(cfg, s') && Sealed(s') && s'.listener == s.listener
    decreases |es|
  {
    if es != [] {
      assert es[0] in es;
      assert forall e <- es[1..] :: e in es;
      StepKeepsInv(cfg, s, es[0]);
      SealedStep(cfg, s, es[0]);
      SealedRun(cfg, Do(cfg, s, es[0]), es[1..]);
    }
  }

  lemma {:induction false} TestGoesOn(cfg: Config, s: State, es: seq<Event>)
    requires Linked(s.t) && Inv(cfg, s) && s.listener.DrainSecond? && Run(cfg, s, es).Some?
    requires forall e <- es :: !e.DrainReadsPending?
    ensures Run(cfg, s, es).value.listener == s.listener && Inv(cfg, Run(cfg, s, es).value)
    decreases |es|
  {
    if es != [] {
      assert es[0] in es;
      assert forall e <- es[1..] :: e in es;
      StepKeepsInv(cfg, s, es[0]);
      TestIsLeft(cfg, s, es[0]);
      TestGoesOn(cfg, Do(cfg, s, es[0]), es[1..]);
    }
  }

  lemma TestIsLeft(cfg: Config, s: State, e: Event)
    requires Linked(s.t) && s.listener.DrainSecond? && Can(cfg, s, e) && !e.DrainReadsPending?
    ensures Do(cfg, s, e).listener == s.listener
  {
    if OfListener(e) {
      NoListenerStep(cfg, s, e);
    } else if OfSetup(e) {
      SetupShape(cfg, s, e);
    } else {
      OthersReplaceNothing(cfg, s, e);
    }
  }

  lemma FirstRead(cfg: Config, s: State)
    requires Inv(cfg, s) && Can(cfg, s, DrainReadsMap)
    ensures var s1 := Do(cfg, s, DrainReadsMap);
            && Inv(cfg, s1) && Linked(s1.t) && s1.t == s.t && s1.setups == s.setups && s1.force == s.force
            && s1.listener == DrainSecond(s.t.sessions == map[])
  {
    StepKeepsInv(cfg, s, DrainReadsMap);
  }

  lemma SecondRead(cfg: Config, s: State)
    requires s.listener.DrainSecond?
    ensures Can(cfg, s, DrainReadsPending)
    ensures var x := Do(cfg, s, DrainReadsPending);
            && x.t == s.t && x.setups == s.setups
            && (x.listener == Exited(true) ==> s.listener.noSessions && s.t.pending == {})
  {}

  /** The whole test: if no set-up can still insert at the first read, then whatever happens until
      the second one, an exit as drained means that the map was empty at the first and that
      map, `pending` and set-ups are empty at the second. */
  lemma DrainIsSound(cfg: Config, s: State, es: seq<Event>, s': State)
    requires Inv(cfg, s) && Can(cfg, s, DrainReadsMap) && !CanStillInsert(s)
    requires Run(cfg, Do(cfg, s, DrainReadsMap), es) == Some(s') && forall e <- es :: !e.DrainReadsPending?
    ensures Can(cfg, s', DrainReadsPending)
    ensures var x := Do(cfg, s', DrainReadsPending);
            x.listener == Exited(true) ==>
              s.t.sessions == map[] && x.t.sessions == map[] && x.t.pending == {} && x.setups == map[]
  {
    FirstRead(cfg, s);
    var s1 := Do(cfg, s, DrainReadsMap);
    TestEnds(cfg, s1, es, s');
    SecondRead(cfg, s');
  }

  lemma TestEnds(cfg: Config, s: State, es: seq<Event>, s': State)
    requires Inv(cfg, s) && Linked(s.t) && s.listener == DrainSecond(s.t.sessions == map[]) && !CanStillInsert(s)
    requires Run(cfg, s, es) == Some(s') && forall e <- es :: !e.DrainReadsPending?
    ensures s'.listener == s.listener
    ensures s.t.sessions == map[] ==> s'.t.sessions == map[] && (s'.t.pending == {} ==> s'.setups == map[])
  {
    TestGoesOn(cfg, s, es);
    if s.t.sessions == map[] {
      EmptyStaysSealed(cfg, s, es, s');
    }
  }

  lemma EmptyStaysSealed(cfg: Config, s: State, es: seq<Event>, s': State)
    requires Inv(cfg, s) && s.listener.DrainSecond? && s.t.sessions == map[] && !CanStillInsert(s)
    requires Run(cfg, s, es) == Some(s') && forall e <- es :: !e.DrainReadsPending?
    ensures s'.t.sessions == map[] && (s'.t.pending == {} ==> s'.setups == map[])
  {
    SealedRun(cfg, s, es);
    if s'.t.pending == {} {
      NobodySetsUp(cfg, s');
    }
  }

  /** And a proxy that was asked to stop and has drained does exit at its next test, if nothing
      comes between. */
  lemma DrainedExits(cfg: Config, s: State)
    requires s.listener.Select? && (s.stop || s.draining) && MapFree(s)
    requires s.t.sessions == map[] && s.t.pending == {}
    ensures var s' := Run(cfg, s, (if s.draining then [] else [StartDrain]) + [DrainReadsMap, DrainReadsPending]);
            s'.Some? && s'.value.listener == Exited(true) && s'.value.cleanupShut
  {
    var test := [DrainReadsMap, DrainReadsPending];
    if s.draining {
      DrainingExits(cfg, s);
      assert [] + test == test;
    } else {
      var s1 := s.(draining := true);
      DrainingExits(cfg, s1);
      RunCons(cfg, s, StartDrain, test);
    }
  }

  lemma DrainingExits(cfg: Config, s: State)
    requires s.listener.Select? && s.draining && MapFree(s) && s.t.sessions == map[] && s.t.pending == {}
    ensures var s' := Run(cfg, s, [DrainReadsMap, DrainReadsPending]);
            s'.Some? && s'.value.listener == Exited(true) && s'.value.cleanupShut
  {
    var s1 := s.(listener := DrainSecond(true));
    RunCons(cfg, s1, DrainReadsPending, []);
    RunCons(cfg, s, DrainReadsMap, [DrainReadsPending]);
    assert [DrainReadsPending] + [] == [DrainReadsPending];
    assert [DrainReadsMap] + [DrainReadsPending] == [DrainReadsMap, DrainReadsPending];
  }

  lemma NobodySetsUp(cfg: Config, s: State)
    requires Inv(cfg, s) && s.t.pending == {}
    ensures s.setups == map[] && !CanStillInsert(s)
  {
    forall id <- s.setups ensures false {
      assert SetsUp(s, s.setups[id].src);
    }
  }

  /** After a sound exit the map and `pending` stay empty for good. */
  lemma ExitedStaysEmpty(cfg: Config, s: State, es: seq<Event>)
    requires Inv(cfg, s) && s.listener == Exited(true) && s.t.sessions == map[] && s.t.pending == {}
    requires Run(cfg, s, es).Some?
    ensures var s' := Run(cfg, s, es).value; s'.t.sessions == map[] && s'.t.pending == {}
  {
    NobodySetsUp(cfg, s);
    ExitedRun(cfg, s, es);
  }

  lemma {:induction false} ExitedRun(cfg: Config, s: State, es: seq<Event>)
    requires Inv(cfg, s) && Sealed(s) && s.listener == Exited(true) && s.t.pending == {} && Run(cfg, s, es).Some?
    ensures var s' := Run(cfg, s, es).value; s'.t.sessions == map[] && s'.t.pending == {}
    decreases |es|
  {
    if es != [] {
      assert !es[0].DrainReadsPending?;
      StepKeepsInv(cfg, s, es[0]);
      SealedStep(cfg, s, es[0]);
      ExitedStepKeepsPending(cfg, s, es[0]);
      ExitedRun(cfg, Do(cfg, s, es[0]), es[1..]);
    }
  }

  lemma ExitedStepKeepsPending(cfg: Config, s: State, e: Event)
    requires Inv(cfg, s) && Sealed(s) && s.listener == Exited(true) && s.t.pending == {} && Can(cfg, s, e)
    ensures Do(cfg, s, e).t.pending == {}
  {
    NobodySetsUp(cfg, s);
    if OfListener(e) {
      NoListenerStep(cfg, s, e);
    } else if e.Sweep? {
      SweepKeepsPendingSet(cfg.idleSecs, s.t, e.src, s.cleanup.now);
    } else if e.Die? {
      KillIsQuiet(s.t, e.id, s.now);
    }
  }

  /** Had the listener read the map and `pending` in one step, it would do without any
      condition: an exit then leaves both empty in every later state. */
  lemma OneStepTestSuffices(cfg: Config, s: State, es: seq<Event>)
    requires Inv(cfg, s) && s.listener.Select? && s.draining && s.t.sessions == map[] && s.t.pending == {}
    requires Run(cfg, s.(listener := Exited(true), cleanupShut := true), es).Some?
    ensures var s' := Run(cfg, s.(listener := Exited(true), cleanupShut := true), es).value;
            s'.t.sessions == map[] && s'.t.pending == {}
  {
    var exited := s.(listener := Exited(true), cleanupShut := true);
    QuietStepKeeps(cfg, s, exited);
    ExitedStaysEmpty(cfg, exited, es);
  }

  // ── Unsound if one can ────────────────────────────────────────────────────

  /** The next action of a set-up task that goes well. */
  function NextAction(s: State, id: Id): Event
    requires id in s.setups
  {
    match s.setups[id].pc
    case Opening => OpenSucceeds(id)
    case Open => CheckForce(id)
    case Inserting => InsertSession(id)
    case Clearing => SetupEnds(id)
  }

  function Rank(pc: SetupPc): nat {
    match pc
    case Opening => 3
    case Open => 2
    case Inserting => 1
    case Clearing => 0
  }

  /** How one such action leaves the listener's test and the rest of the tasks. */
  ghost predicate Onward(s: State, id: Id, s': State)
    requires id in s.setups
  {
    && s'.listener == s.listener && s'.cleanup == s.cleanup && s'.force == s.force
    && s'.setups.Keys == (if s.setups[id].pc == Clearing then s.setups.Keys - {id} else s.setups.Keys)
    && (forall i <- s'.setups :: i != id ==> s'.setups[i] == s.setups[i])
    && (id in s'.setups ==> Rank(s'.setups[id].pc) < Rank(s.setups[id].pc))
    && (s.setups[id].pc == Inserting ==> s'.t.sessions != map[])
    && (s.t.sessions != map[] ==> s'.t.sessions != map[])
    && (!s.force && s.setups[id].pc == Opening ==> s'.setups[id].pc == Open)
    && (!s.force && s.setups[id].pc == Open ==> s'.setups[id].pc == Inserting)
  }

  lemma NextActionGoesOn(cfg: Config, s: State, id: Id)
    requires Linked(s.t) && id in s.setups && MapFree(s)
    ensures Can(cfg, s, NextAction(s, id)) && Onward(s, id, Do(cfg, s, NextAction(s, id)))
  {
    match s.setups[id].pc {
      case Opening => OpensGoesOn(s, id);
      case Open => CheckGoesOn(s, id);
      case Inserting => InsertGoesOn(s, id);
      case Clearing => EndGoesOn(s, id);
    }
  }

  lemma OpensGoesOn(s: State, id: Id)
    requires AtPc(s, id, Opening)
    ensures Onward(s, id, AfterOpens(s, id))
  {}

  lemma CheckGoesOn(s: State, id: Id)
    requires AtPc(s, id, Open)
    ensures Onward(s, id, AfterCheck(s, id))
  {
    KillIsQuiet(s.t, id, s.now);
  }

  lemma InsertGoesOn(s: State, id: Id)
    requires Linked(s.t) && AtPc(s, id, Inserting)
    ensures Onward(s, id, AfterInsert(s, id))
  {
    InsertFacts(s.t, s.setups[id].src, id, s.now);
    assert s.setups[id].src in AfterInsert(s, id).t.sessions;
  }

  lemma EndGoesOn(s: State, id: Id)
    requires AtPc(s, id, Clearing)
    ensures Onward(s, id, AfterSetup(s, id))
  {}

  /** The set-up task has run to its end, and inserted if it still could. */
  ghost predicate Finished(s: State, id: Id, s': State)
    requires id in s.setups
  {
    && s'.listener == s.listener && s'.cleanup == s.cleanup && s'.force == s.force
    && s'.setups.Keys == s.setups.Keys - {id}
    && (s.t.sessions != map[] || s.setups[id].pc == Inserting || (!s.force && s.setups[id].pc != Clearing) ==>
          s'.t.sessions != map[])
  }

  lemma OnwardFinishes(s: State, id: Id, s1: State, s': State)
    requires id in s.setups && Onward(s, id, s1)
    requires if id in s1.setups then Finished(s1, id, s') else s' == s1
    ensures Finished(s, id, s')
  {}

  /** Lets one set-up task run to its end. */
  lemma {:induction false} FinishOne(cfg: Config, s: State, id: Id) returns (es: seq<Event>, s': State)
    requires Inv(cfg, s) && id in s.setups && MapFree(s)
    ensures Run(cfg, s, es) == Some(s') && Inv(cfg, s') && Finished(s, id, s')
    decreases Rank(s.setups[id].pc)
  {
    var e := NextAction(s, id);
    NextActionGoesOn(cfg, s, id);
    StepKeepsInv(cfg, s, e);
    var s1 := Do(cfg, s, e);
    var rest := [];
    s' := s1;
    if id in s1.setups {
      rest, s' := FinishOne(cfg, s1, id);
    }
    es := [e] + rest;
    RunCons(cfg, s, e, rest);
    OnwardFinishes(s, id, s1, s');
  }

  lemma {:induction false} FinishAll(cfg: Config, s: State) returns (es: seq<Event>, s': State)
    requires Inv(cfg, s) && MapFree(s)
    ensures Run(cfg, s, es) == Some(s') && Inv(cfg, s')
    ensures s'.listener == s.listener && s'.setups == map[]
    ensures s.t.sessions != map[] ==> s'.t.sessions != map[]
    decreases s.setups.Keys
  {
    if s.setups.Keys == {} {
      es, s' := [], s;
    } else {
      var id :| id in s.setups;
      var first, s1 := FinishOne(cfg, s, id);
      var rest;
      rest, s' := FinishAll(cfg, s1);
      es := first + rest;
      RunJoin(cfg, s, first, s1, rest);
    }
  }

  /** Lets a sweep under way release the map. */
  lemma {:induction false} FinishSweep(cfg: Config, s: State) returns (es: seq<Event>, s': State)
    requires Inv(cfg, s) && !s.listener.Forcing?
    ensures Run(cfg, s, es) == Some(s') && Inv(cfg, s') && MapFree(s')
    ensures s'.listener == s.listener && s'.setups == s.setups && s'.force == s.force
    ensures s'.cleanupShut == s.cleanupShut && s'.cleanup == if s.cleanup.Sweeping? then Planning else s.cleanup
    decreases s.cleanup.Sweeping?, if s.cleanup.Sweeping? then s.cleanup.todo else {}
  {
    if !s.cleanup.Sweeping? {
      es, s' := [], s;
    } else {
      var e := SweepEnds;
      if s.cleanup.todo != {} {
        var src :| src in s.cleanup.todo;
        e := Sweep(src);
      }
      StepKeepsInv(cfg, s, e);
      SweepStep(cfg, s, e);
      var s1 := Do(cfg, s, e);
      var rest;
      rest, s' := FinishSweep(cfg, s1);
      es := [e] + rest;
      RunCons(cfg, s, e, rest);
    }
  }

  lemma SweepStep(cfg: Config, s: State, e: Event)
    requires Can(cfg, s, e) && (e.Sweep? || e.SweepEnds?)
    ensures var s' := Do(cfg, s, e);
            && s'.listener == s.listener && s'.setups == s.setups && s'.force == s.force
            && s'.cleanupShut == s.cleanupShut
            && (if e.Sweep? then s'.cleanup.Sweeping? && s'.cleanup.todo < s.cleanup.todo else s'.cleanup == Planning)
  {}

  /** Conversely: if a set-up can still insert when the map has been found empty, there is a
      continuation in which the same test passes and the listener leaves a session behind. */
  lemma DrainLeaks(cfg: Config, s: State) returns (es: seq<Event>, s': State)
    requires Inv(cfg, s) && s.listener == DrainSecond(true) && CanStillInsert(s)
    ensures Run(cfg, s, es + [DrainReadsPending]) == Some(s')
    ensures s'.listener == Exited(true) && s'.t.sessions != map[]
  {
    var id :| id in s.setups && (s.setups[id].pc == Inserting || (!s.force && s.setups[id].pc != Clearing));
    var a, s1 := FinishSweep(cfg, s);
    var b, s2 := FinishInserting(cfg, s1, id);
    RunJoin(cfg, s, a, s1, b);
    es := a + b;
    s' := PassTest(cfg, s2);
    RunJoin(cfg, s, es, s2, [DrainReadsPending]);
  }

  lemma FinishInserting(cfg: Config, s: State, id: Id) returns (es: seq<Event>, s': State)
    requires Inv(cfg, s) && MapFree(s)
    requires id in s.setups && (s.setups[id].pc == Inserting || (!s.force && s.setups[id].pc != Clearing))
    ensures Run(cfg, s, es) == Some(s') && Inv(cfg, s')
    ensures s'.listener == s.listener && s'.setups == map[] && s'.t.sessions != map[]
  {
    var first, s1 := FinishOne(cfg, s, id);
    var rest;
    rest, s' := FinishAll(cfg, s1);
    es := first + rest;
    RunJoin(cfg, s, first, s1, rest);
  }

  lemma PassTest(cfg: Config, s: State) returns (s': State)
    requires Inv(cfg, s) && s.listener == DrainSecond(true) && s.setups == map[]
    ensures Run(cfg, s, [DrainReadsPending]) == Some(s')
    ensures s'.listener == Exited(true) && s'.t.sessions == s.t.sessions
  {
    NobodyPends(cfg, s);
    s' := AfterDrainTest(s);
    RunCons(cfg, s, DrainReadsPending, []);
    assert [DrainReadsPending] + [] == [DrainReadsPending];
  }

  lemma NobodyPends(cfg: Config, s: State)
    requires Inv(cfg, s) && s.setups == map[] && s.listener.DrainSecond?
    ensures s.t.pending == {}
  {
    assert forall src :: !SetsUp(s, src) && !Marks(s, src);
  }
}
