/** Which sessions live on outside the map of the UDP proxy: none, but those whose place in the
    map was taken by a replacing insert. */
module UdpHoused {
  import opened Machine
  import opened UdpTable
  import opened UdpProxy
  import opened UdpInvariants
  import opened UdpTheorems
  import opened UdpTiming
  import opened UdpEviction

  /** A set-up task has opened the session and still has it in hand. */
  predicate InHand(s: State, id: Id) {
    AtPc(s, id, Open) || AtPc(s, id, Inserting)
  }

  /** Sessions that run though neither the map nor a set-up task has them. */
  ghost function Homeless(s: State): set<Id> {
    set id <- s.t.objects | !s.t.objects[id].dead && !InTable(s.t, id) && !InHand(s, id)
  }

  /** Whose place in the map a step takes. */
  function Displaced(s: State, e: Event): set<Id> {
    if e.InsertSession? && e.id in s.setups && s.setups[e.id].src in s.t.sessions then
      {s.t.sessions[s.setups[e.id].src]}
    else {}
  }

  /** Every session that leaves the map is dead, and none comes to life. */
  ghost predicate LeaveDead(t: Table, t': Table) {
    && t'.home == t.home && t'.objects.Keys <= t.objects.Keys
    && forall id <- t'.objects ::
         && (t.objects[id].dead ==> t'.objects[id].dead)
         && (InTable(t, id) ==> InTable(t', id) || t'.objects[id].dead)
  }

  lemma RemoveLeavesDead(t: Table, src: Src)
    requires Linked(t) && src in t.sessions && Object(t, t.sessions[src]).dead
    ensures LeaveDead(t, Remove(t, src))
  {
    RemoveShape(t, src);
  }

  lemma LookUpLeavesDead(t: Table, src: Src, now: u64)
    requires Linked(t)
    ensures LeaveDead(t, Lookup(t, src, now).0)
  {
    if src in t.sessions && Object(t, t.sessions[src]).dead {
      RemoveLeavesDead(t, src);
    }
  }

  lemma KillLeavesDead(t: Table, id: Id, now: u64)
    ensures LeaveDead(t, Kill(t, id, now))
  {}

  lemma SweepLeavesDead(idleSecs: u64, t: Table, src: Src, now: u64)
    requires Linked(t)
    ensures LeaveDead(t, SweepOne(idleSecs, t, src, now))
  {
    if src in t.sessions && Expired(idleSecs, t, src, now) {
      if Object(t, t.sessions[src]).dead {
        RemoveLeavesDead(t, src);
      } else {
        StaleLeavesDead(t, src, Kill(t, t.sessions[src], now), now);
      }
    }
  }

  lemma StaleLeavesDead(t: Table, src: Src, killed: Table, now: u64)
    requires Linked(t) && src in t.sessions && killed == Kill(t, t.sessions[src], now)
    ensures LeaveDead(t, Remove(killed, src))
  {
    KillIsQuiet(t, t.sessions[src], now);
    KillLeavesDead(t, t.sessions[src], now);
    RemoveLeavesDead(killed, src);
  }

  lemma LeavingHouses(s: State, s': State)
    requires LeaveDead(s.t, s'.t) && s'.setups == s.setups
    ensures Homeless(s') <= Homeless(s)
  {}

  lemma StepHouses(cfg: Config, s: State, e: Event)
    requires Inv(cfg, s) && Can(cfg, s, e)
    ensures Homeless(Do(cfg, s, e)) <= Homeless(s) + Displaced(s, e)
  {
    if OfListener(e) {
      ListenerHouses(cfg, s, e);
    } else if OfSetup(e) {
      SetupHouses(cfg, s, e);
    } else {
      SettledByRest(cfg, s, e);
      OthersHouse(cfg, s, e);
    }
  }

  lemma OthersHouse(cfg: Config, s: State, e: Event)
    requires Linked(s.t) && Can(cfg, s, e) && !OfListener(e) && !OfSetup(e) && Do(cfg, s, e).setups == s.setups
    ensures Homeless(Do(cfg, s, e)) <= Homeless(s)
  {
    if e.Sweep? {
      SweepMoves(cfg, s, e.src);
      SweepLeavesDead(cfg.idleSecs, s.t, e.src, s.cleanup.now);
    } else if OfCleanup(e) {
      CleanupStep(cfg, s, e);
    } else if e.Die? {
      KillLeavesDead(s.t, e.id, s.now);
    } else {
      RestLeavesCleanup(cfg, s, e);
    }
    LeavingHouses(s, Do(cfg, s, e));
  }

  lemma ListenerHouses(cfg: Config, s: State, e: Event)
    requires Inv(cfg, s) && Can(cfg, s, e) && OfListener(e)
    ensures Homeless(Do(cfg, s, e)) <= Homeless(s)
  {
    if e.AskSlot? {
      GrantAnswers(cfg, s);
      AnswerHouses(s, Grant(cfg.caps, s.t, s.listener.src, s.next));
    } else if e.Spawn? {
      SpawnHouses(s);
    } else {
      ListenerLeavesHomes(cfg, s, e);
      if e.LookUp? {
        LookUpLeavesDead(s.t, s.listener.src, s.now);
      } else if e.ForceOne? {
        KillLeavesDead(s.t, s.t.sessions[e.src], s.now);
      } else {
        ListenerLeavesMap(cfg, s, e);
      }
      LeavingHouses(s, Do(cfg, s, e));
    }
  }

  lemma AnswerHouses(s: State, answer: (Table, bool))
    requires Linked(s.t) && OwnersInv(s) && s.listener.Marked? && Answers(s, answer)
    ensures Homeless(AfterAsk(s, answer)) <= Homeless(s)
  {
    assert s.next !in s.t.home;
    NewHomeHouses(s, AfterAsk(s, answer), s.next);
  }

  lemma NewHomeHouses(s: State, s': State, next: Id)
    requires s'.t.sessions == s.t.sessions && s'.t.objects == s.t.objects && s'.setups == s.setups
    requires next !in s.t.home && forall id <- s.t.home :: id in s'.t.home && s'.t.home[id] == s.t.home[id]
    ensures Homeless(s') <= Homeless(s)
  {}

  lemma SpawnHouses(s: State)
    requires OwnersInv(s) && s.listener.Granted?
    ensures Homeless(AfterSpawn(s)) <= Homeless(s)
  {}

  lemma SetupHouses(cfg: Config, s: State, e: Event)
    requires Inv(cfg, s) && Can(cfg, s, e) && OfSetup(e)
    ensures Homeless(Do(cfg, s, e)) <= Homeless(s) + Displaced(s, e)
  {
    assert SetupOwns(s, e.id);
    match e {
      case OpenFails(id) => FailHouses(s, id);
      case OpenSucceeds(id) => OpenHouses(s, id);
      case CheckForce(id) => CheckHouses(s, id);
      case InsertSession(id) => InsertHouses(s, id);
      case SetupEnds(id) => EndHouses(s, id);
    }
  }

  lemma FailHouses(s: State, id: Id)
    requires AtPc(s, id, Opening)
    ensures Homeless(AfterOpenFails(s, id)) <= Homeless(s)
  {}

  lemma OpenHouses(s: State, id: Id)
    requires AtPc(s, id, Opening)
    ensures Homeless(AfterOpens(s, id)) <= Homeless(s)
  {}

  /** A set-up that finds the proxy forced down cancels the session it had opened. */
  lemma CheckHouses(s: State, id: Id)
    requires AtPc(s, id, Open)
    ensures Homeless(AfterCheck(s, id)) <= Homeless(s)
  {
    KillIsQuiet(s.t, id, s.now);
  }

  lemma InsertHouses(s: State, id: Id)
    requires Linked(s.t) && AtPc(s, id, Inserting) && SetupOwns(s, id)
    ensures Homeless(AfterInsert(s, id)) <= Homeless(s) + Displaced(s, InsertSession(id))
  {
    InsertFacts(s.t, s.setups[id].src, id, s.now);
    InsertLeavesOthers(s.t, s.setups[id].src, id, s.now);
    TakingAPlace(s, id, AfterInsert(s, id));
  }

  lemma TakingAPlace(s: State, id: Id, s': State)
    requires AtPc(s, id, Inserting) && id in s.t.home && s.t.home[id] == s.setups[id].src
    requires s'.t.sessions == s.t.sessions[s.setups[id].src := id] && s'.t.home == s.t.home
    requires s'.setups == SetPc(s, id, Clearing)
    requires s'.t.objects.Keys <= s.t.objects.Keys + {id}
    requires forall i <- s.t.objects :: i != id ==> i in s'.t.objects && s'.t.objects[i] == s.t.objects[i]
    ensures Homeless(s') <= Homeless(s) + Displaced(s, InsertSession(id))
  {}

  lemma EndHouses(s: State, id: Id)
    requires AtPc(s, id, Clearing)
    ensures Homeless(AfterSetup(s, id)) <= Homeless(s)
  {}

  lemma {:induction false} RunHouses(cfg: Config, s: State, es: seq<Event>)
    requires Inv(cfg, s) && Run(cfg, s, es).Some? && |Homeless(s)| <= s.t.replaced
    ensures var s' := Run(cfg, s, es).value; |Homeless(s')| <= s'.t.replaced
    decreases |es|
  {
    if es != [] {
      var s1 := Do(cfg, s, es[0]);
      StepHouses(cfg, s, es[0]);
      StepKeepsInv(cfg, s, es[0]);
      ReplacesOnlyThroughGap(cfg, s, es[0]);
      Within(Homeless(s1), Homeless(s), Displaced(s, es[0]));
      RunHouses(cfg, s1, es[1..]);
    }
  }

  lemma Within(a: set<Id>, b: set<Id>, c: set<Id>)
    requires a <= b + c
    ensures |a| <= |b| + |c|
  {
    var d := b + c - a;
    assert a + d == b + c;
    assert |a + d| == |a| + |d|;
    assert |b + c| <= |b| + |c|;
  }

  /** In every reachable state the sessions that run outside the map and outside the set-up
      tasks are at most as many as the inserts that took a place: if none did, the map and the
      set-ups know every session that runs. */
  lemma RunningMeansKnown(cfg: Config, start: u64, es: seq<Event>, s: State)
    requires Run(cfg, Init(start), es) == Some(s)
    ensures |Homeless(s)| <= s.t.replaced
    ensures s.t.replaced == 0 ==>
              forall id <- s.t.objects :: s.t.objects[id].dead || InTable(s.t, id) || InHand(s, id)
  {
    InitInv(cfg, start);
    RunHouses(cfg, Init(start), es);
    if s.t.replaced == 0 {
      assert Homeless(s) == {};
      forall id <- s.t.objects ensures s.t.objects[id].dead || InTable(s.t, id) || InHand(s, id) {
        assert id !in Homeless(s);
      }
    }
  }
}
