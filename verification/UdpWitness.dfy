/** Runs of the UDP proxy from its start into the two gaps: the one between the listener's
    lookup and its mark, and the one between the two reads of its drain test. */
module UdpWitness {
  import opened Machine
  import opened Limits
  import opened UdpTable
  import opened UdpProxy
  import opened UdpInvariants
  import opened UdpTheorems
  import opened UdpDrain

  // ── The first session of a fresh proxy ────────────────────────────────────

  /** The ledger with one guard. */
  function One(cfg: Config, src: Src): Ledger {
    TryAcquire(cfg.caps, EMPTY, src.ip).0
  }

  lemma FirstIsAdmitted(cfg: Config, src: Src)
    ensures TryAcquire(cfg.caps, EMPTY, src.ip).1.Admitted?
    ensures One(cfg, src).total == 1 && Count(One(cfg, src), src.ip) == 1
  {}

  /** The state after `src` was admitted and its set-up task got to `pc`. */
  function SettingUp(cfg: Config, now: u64, src: Src, pc: SetupPc, objects: map<Id, Session>): State {
    var t := EMPTY_TABLE.(objects := objects, pending := {src}, home := map[0 := src], who := map[0 := src.ip],
                          held := multiset{src.ip}, ledger := One(cfg, src));
    Init(now).(t := t, setups := map[0 := Setup(src, pc, false)], next := 1)
  }

  /** One more event at the end of a run. */
  lemma Next(cfg: Config, s: State, es: seq<Event>, m: State, e: Event) returns (es': seq<Event>, m': State)
    requires Run(cfg, s, es) == Some(m) && Can(cfg, m, e)
    ensures m' == Do(cfg, m, e) && es' == es + [e] && Run(cfg, s, es') == Some(m')
  {
    es', m' := es + [e], Do(cfg, m, e);
    RunCons(cfg, m, e, []);
    assert [e] + [] == [e];
    RunJoin(cfg, s, es, m, [e]);
  }

  lemma MarkFirst(cfg: Config, now: u64, src: Src) returns (es: seq<Event>, s: State)
    ensures Run(cfg, Init(now), es) == Some(s)
    ensures s == Init(now).(t := EMPTY_TABLE.(pending := {src}), listener := Marked(src, false))
  {
    es, s := Next(cfg, Init(now), [], Init(now), Packet(src));
    es, s := Next(cfg, Init(now), es, s, LookUp);
    assert s == Init(now).(listener := Missed(src));
    es, s := Next(cfg, Init(now), es, s, MarkPending);
  }

  lemma SpawnFirst(cfg: Config, now: u64, src: Src) returns (es: seq<Event>, s: State)
    ensures Run(cfg, Init(now), es) == Some(s) && s == SettingUp(cfg, now, src, Opening, map[])
  {
    es, s := MarkFirst(cfg, now, src);
    FirstIsAdmitted(cfg, src);
    es, s := Next(cfg, Init(now), es, s, AskSlot);
    es, s := Next(cfg, Init(now), es, s, Spawn);
  }

  /** The set-up task goes on, while the listener and the tokens are in any state. */
  lemma GetReady(cfg: Config, s0: State, es: seq<Event>, s: State) returns (es': seq<Event>, s': State)
    requires Run(cfg, s0, es) == Some(s) && AtPc(s, 0, Opening) && !s.force
    ensures Run(cfg, s0, es') == Some(s')
    ensures s' == s.(setups := SetPc(s, 0, Inserting),
                     t := s.t.(objects := s.t.objects[0 := Session(s.now, false, 0, 0)]))
  {
    es', s' := Next(cfg, s0, es, s, OpenSucceeds(0));
    assert s' == AfterOpens(s, 0);
    es', s' := Next(cfg, s0, es', s', CheckForce(0));
  }

  /** It inserts and clears its mark. */
  lemma Finish(cfg: Config, s0: State, es: seq<Event>, s: State) returns (es': seq<Event>, s': State)
    requires Run(cfg, s0, es) == Some(s) && AtPc(s, 0, Inserting) && MapFree(s) && s.t.sessions == map[]
    ensures Run(cfg, s0, es') == Some(s')
    ensures s' == s.(setups := s.setups - {0},
                     t := Unmark(Insert(s.t, s.setups[0].src, 0, s.now), s.setups[0].src))
    ensures s'.t.sessions == map[s.setups[0].src := 0] && s'.t.ledger == s.t.ledger && s'.t.held == s.t.held
  {
    es', s' := Next(cfg, s0, es, s, InsertSession(0));
    assert s' == AfterInsert(s, 0);
    es', s' := Next(cfg, s0, es', s', SetupEnds(0));
  }

  // ── Between lookup and mark ───────────────────────────────────────────────

  /** The listener about to mark a source that by now has a session. */
  ghost predicate InGap(s: State, src: Src) {
    && s.listener == Missed(src) && src in s.t.sessions && src !in s.t.pending
    && MapFree(s) && !s.draining && !s.force
  }

  lemma GapIsReached(cfg: Config, now: u64, src: Src) returns (es: seq<Event>, s: State)
    ensures Run(cfg, Init(now), es) == Some(s) && InGap(s, src)
    ensures s.t.replaced == 0 && s.t.held == multiset{src.ip} && s.t.ledger == One(cfg, src)
  {
    es, s := SpawnFirst(cfg, now, src);
    es, s := Next(cfg, Init(now), es, s, Packet(src));
    es, s := Next(cfg, Init(now), es, s, LookUp);
    assert s == SettingUp(cfg, now, src, Opening, map[]).(listener := Missed(src));
    es, s := GetReady(cfg, Init(now), es, s);
    es, s := Finish(cfg, Init(now), es, s);
  }

  /** A session is replaced in some run from the start, unless a cap of one forbids it. */
  lemma ReplacementIsReached(cfg: Config, now: u64, src: Src) returns (es: seq<Event>, s: State)
    requires cfg.caps.maxTotal != 1 && cfg.caps.maxPerIp != 1
    ensures Run(cfg, Init(now), es) == Some(s) && s.t.replaced == 1
  {
    es, s := GapIsReached(cfg, now, src);
    FirstIsAdmitted(cfg, src);
    InitInv(cfg, now);
    RunKeepsInv(cfg, Init(now), es);
    GapReplaces(cfg, s);
    var id := s.next;
    var more := [MarkPending, AskSlot, Spawn, OpenSucceeds(id), CheckForce(id), InsertSession(id)];
    RunJoin(cfg, Init(now), es, s, more);
    es, s := es + more, Run(cfg, s, more).value;
  }

  /** With a cap of one, the slot of a session leaves none for a set-up beside it. */
  lemma CapOfOneStep(cfg: Config, now: u64, es: seq<Event>, s: State, e: Event)
    requires cfg.caps.maxTotal == 1 || cfg.caps.maxPerIp == 1
    requires Run(cfg, Init(now), es) == Some(s) && Can(cfg, s, e)
    ensures Do(cfg, s, e).t.replaced == s.t.replaced
  {
    InitInv(cfg, now);
    RunKeepsInv(cfg, Init(now), es);
    ReplacesOnlyThroughGap(cfg, s, e);
    if e.InsertSession? && s.setups[e.id].src in s.t.sessions {
      NoRoomBeside(cfg, now, es, s, e.id);
    }
  }

  lemma NoRoomBeside(cfg: Config, now: u64, es: seq<Event>, s: State, id: Id)
    requires cfg.caps.maxTotal == 1 || cfg.caps.maxPerIp == 1
    requires Run(cfg, Init(now), es) == Some(s) && AtPc(s, id, Inserting)
    ensures s.setups[id].src !in s.t.sessions
  {
    var src := s.setups[id].src;
    LimiterCountsSessions(cfg, now, es, s, src.ip);
    assert id in SetupsOf(s, Some(src.ip)) && id in SetupsOf(s, None);
    assert src in s.t.sessions ==> src in SessionsOf(s, Some(src.ip));
    assert |s.t.sessions| == |s.t.sessions.Keys|;
  }

  lemma {:induction false} CapOfOneReplacesNothing(cfg: Config, now: u64, es: seq<Event>)
    requires cfg.caps.maxTotal == 1 || cfg.caps.maxPerIp == 1
    requires Run(cfg, Init(now), es).Some?
    ensures Run(cfg, Init(now), es).value.t.replaced == 0
    decreases |es|
  {
    if es != [] {
      var init, e := es[..|es| - 1], es[|es| - 1];
      var m := LastStep(cfg, Init(now), init, e, es);
      CapOfOneReplacesNothing(cfg, now, init);
      CapOfOneStep(cfg, now, init, m, e);
    }
  }

  lemma {:induction false} LastStep(cfg: Config, s: State, init: seq<Event>, e: Event, es: seq<Event>)
    returns (m: State)
    requires es == init + [e] && Run(cfg, s, es).Some?
    ensures Run(cfg, s, init) == Some(m) && Can(cfg, m, e) && Run(cfg, s, es) == Some(Do(cfg, m, e))
    decreases |init|
  {
    if init == [] {
      m := s;
      assert es == [e];
      assert Run(cfg, Do(cfg, s, e), es[1..]) == Some(Do(cfg, s, e));
    } else {
      assert es[1..] == init[1..] + [e] && es[0] == init[0];
      m := LastStep(cfg, Do(cfg, s, init[0]), init[1..], e, es[1..]);
    }
  }

  ghost predicate Replaces(cfg: Config, now: u64, es: seq<Event>) {
    Run(cfg, Init(now), es).Some? && Run(cfg, Init(now), es).value.t.replaced > 0
  }

  /** Exactly when the proxy can replace a session at all. */
  lemma ReplacesIffNoCapIsOne(cfg: Config, now: u64)
    ensures (exists es :: Replaces(cfg, now, es)) <==> cfg.caps.maxTotal != 1 && cfg.caps.maxPerIp != 1
  {
    if cfg.caps.maxTotal != 1 && cfg.caps.maxPerIp != 1 {
      var src: Src :| true;
      var es, s := ReplacementIsReached(cfg, now, src);
      assert Replaces(cfg, now, es);
    } else {
      forall es ensures !Replaces(cfg, now, es) {
        if Run(cfg, Init(now), es).Some? {
          CapOfOneReplacesNothing(cfg, now, es);
        }
      }
    }
  }

  // ── Between the two reads of the drain test ───────────────────────────────

  /** The map was found empty while a set-up task is about to insert. */
  lemma DrainGapIsReached(cfg: Config, now: u64, src: Src) returns (es: seq<Event>, s: State)
    ensures Run(cfg, Init(now), es) == Some(s)
    ensures s.listener == DrainSecond(true) && s.t.sessions == map[] && CanStillInsert(s)
  {
    es, s := SpawnFirst(cfg, now, src);
    es, s := GetReady(cfg, Init(now), es, s);
    es, s := Next(cfg, Init(now), es, s, RequestStop);
    es, s := Next(cfg, Init(now), es, s, StartDrain);
    es, s := Next(cfg, Init(now), es, s, DrainReadsMap);
    assert AtPc(s, 0, Inserting);
  }

  /** A run in which the listener exits as drained with a session in the map, for every
      configuration. */
  lemma DrainLeakIsReached(cfg: Config, now: u64, src: Src) returns (es: seq<Event>, s: State)
    ensures Run(cfg, Init(now), es) == Some(s) && s.listener == Exited(true) && s.t.sessions != map[]
  {
    es, s := DrainGapIsReached(cfg, now, src);
    InitInv(cfg, now);
    RunKeepsInv(cfg, Init(now), es);
    var more, leaked := DrainLeaks(cfg, s);
    RunJoin(cfg, Init(now), es, s, more + [DrainReadsPending]);
    es, s := es + (more + [DrainReadsPending]), leaked;
  }
}
