/** What every step of the UDP proxy keeps, and what follows for whole runs. */
module UdpInvariants {
  import opened Machine
  import opened Limits
  import opened UdpTable
  import opened UdpProxy

  // ── Who holds which slot ──────────────────────────────────────────────────

  /** A set-up task holds its slot until it fails or hands it to the map. */
  predicate Holding(pc: SetupPc) {
    pc != Clearing
  }

  predicate HeldBySetup(s: State, id: Id) {
    id in s.setups && Holding(s.setups[id].pc)
  }

  predicate HeldByListener(s: State, id: Id) {
    s.listener.Granted? && s.listener.id == id
  }

  ghost predicate SetupOwns(s: State, id: Id)
    requires id in s.setups
  {
    var u := s.setups[id];
    && id in s.t.home && s.t.home[id] == u.src
    && (Holding(u.pc) ==> id in s.t.who && !InTable(s.t, id))
    && (u.pc == Open || u.pc == Inserting ==> id in s.t.objects)
  }

  /** Each live slot has exactly one holder: the map, a set-up task or the listener. */
  ghost predicate OwnersInv(s: State) {
    && (forall id <- s.setups :: SetupOwns(s, id))
    && (forall id <- s.t.who :: InTable(s.t, id) || HeldBySetup(s, id) || HeldByListener(s, id))
    && (forall id <- s.t.home :: id < s.next)
    && (s.listener.Granted? ==>
          var id := s.listener.id;
          id in s.t.who && id in s.t.home && s.t.home[id] == s.listener.src && id !in s.setups && !InTable(s.t, id))
  }

  // ── Who is pending ────────────────────────────────────────────────────────

  predicate Marks(s: State, src: Src) {
    match s.listener
    case Marked(a, _) => a == src
    case Refused(a) => a == src
    case Granted(a, _, _) => a == src
    case _ => false
  }

  predicate SetsUp(s: State, src: Src) {
    exists id <- s.setups :: s.setups[id].src == src
  }

  /** `pending` is exactly the sources just marked or being set up, each by one task. */
  ghost predicate PendingInv(s: State) {
    && (forall src :: src in s.t.pending <==> Marks(s, src) || SetsUp(s, src))
    && (forall src :: !(Marks(s, src) && SetsUp(s, src)))
    && (forall i <- s.setups, j <- s.setups :: s.setups[i].src == s.setups[j].src ==> i == j)
  }

  // ── The rest ──────────────────────────────────────────────────────────────

  /** While the map is not being swept, and until the force arm ran, the gauge counts it. */
  ghost predicate GaugeInv(s: State) {
    !s.cleanup.Sweeping? && !s.forced ==> s.t.active == |s.t.sessions|
  }

  /** A draining listener marks and admits nobody. */
  ghost predicate DrainInv(s: State) {
    s.draining ==> !s.listener.Marked? && !s.listener.Refused? && !s.listener.Granted?
  }

  /** A source marked while it had no session gets none before its set-up task is through. */
  ghost predicate GapInv(s: State) {
    && (forall id <- s.setups :: Holding(s.setups[id].pc) && !s.setups[id].gap ==> s.setups[id].src !in s.t.sessions)
    && (s.listener.Marked? && !s.listener.gap ==> s.listener.src !in s.t.sessions)
    && (s.listener.Granted? && !s.listener.gap ==> s.listener.src !in s.t.sessions)
  }

  ghost predicate Inv(cfg: Config, s: State) {
    && TableInv(cfg.caps, s.t) && OwnersInv(s) && PendingInv(s) && GaugeInv(s) && DrainInv(s) && GapInv(s)
  }

  lemma InitInv(cfg: Config, now: u64)
    ensures Inv(cfg, Init(now))
  {}

  // ── Frames ────────────────────────────────────────────────────────────────

  /** Between `t` and `t'` at most the session of `gone` left the map, with its slot. */
  ghost predicate Left(t: Table, t': Table, gone: Option<Src>) {
    && t'.home == t.home && t.objects.Keys <= t'.objects.Keys
    && match gone
       case None => t'.sessions == t.sessions && t'.who == t.who
       case Some(src) =>
         src in t.sessions && t'.sessions == t.sessions - {src} && t'.who == t.who - {t.sessions[src]}
  }

  predicate Marking(l: Listener) {
    l.Marked? || l.Refused? || l.Granted?
  }

  ghost predicate SameTasks(s: State, s': State) {
    && s'.setups == s.setups && s'.next == s.next
    && (s'.listener == s.listener || (!Marking(s.listener) && !Marking(s'.listener)))
  }

  lemma LeavingKeepsOwners(s: State, s': State, gone: Option<Src>)
    requires Linked(s.t) && OwnersInv(s) && Left(s.t, s'.t, gone)
    requires s'.setups == s.setups && s'.next == s.next
    requires s'.listener == s.listener || (!s.listener.Granted? && !s'.listener.Granted?)
    ensures OwnersInv(s')
  {
    forall id <- s'.setups ensures SetupOwns(s', id) {
      assert SetupOwns(s, id);
    }
  }

  lemma LeavingKeepsPending(s: State, s': State)
    requires PendingInv(s) && s'.t.pending == s.t.pending && SameTasks(s, s')
    ensures PendingInv(s')
  {
    assert forall src :: SetsUp(s', src) <==> SetsUp(s, src);
    assert forall src :: Marks(s', src) <==> Marks(s, src);
  }

  lemma LeavingKeepsGap(s: State, s': State, gone: Option<Src>)
    requires GapInv(s) && Left(s.t, s'.t, gone) && SameTasks(s, s')
    ensures GapInv(s')
  {}

  lemma LeavingKeepsInv(cfg: Config, s: State, s': State, gone: Option<Src>)
    requires Inv(cfg, s) && TableInv(cfg.caps, s'.t) && Left(s.t, s'.t, gone) && s'.t.pending == s.t.pending
    requires SameTasks(s, s')
    requires GaugeInv(s') && (s'.draining ==> s.draining || !Marking(s'.listener))
    ensures Inv(cfg, s')
  {
    LeavingKeepsOwners(s, s', gone);
    LeavingKeepsPending(s, s');
    LeavingKeepsGap(s, s', gone);
  }

  lemma RemoveLeft(t: Table, src: Src)
    requires Linked(t) && src in t.sessions
    ensures Left(t, Remove(t, src), Some(src))
  {}

  /** Steps that touch neither the slots nor the map. */
  lemma QuietStepKeeps(cfg: Config, s: State, s': State)
    requires Inv(cfg, s) && SameTasks(s, s')
    requires s'.t == s.t.(objects := s'.t.objects, permit := s'.t.permit) && s.t.objects.Keys <= s'.t.objects.Keys
    requires s'.cleanup.Sweeping? || !s.cleanup.Sweeping?
    requires s'.forced == s.forced && (s'.draining ==> s.draining || !Marking(s'.listener))
    ensures Inv(cfg, s')
  {
    SlotsFrame(cfg.caps, s.t, s'.t);
    LeavingKeepsInv(cfg, s, s', None);
  }

  // ── Listener ──────────────────────────────────────────────────────────────

  lemma LookupLeft(t: Table, src: Src, now: u64)
    requires Linked(t)
    ensures var t' := Lookup(t, src, now).0;
            Left(t, t', if src in t.sessions && Object(t, t.sessions[src]).dead then Some(src) else None)
  {
    if src in t.sessions && Object(t, t.sessions[src]).dead {
      RemoveLeft(t, src);
    }
  }

  lemma LookupGauge(caps: Caps, t: Table, src: Src, now: u64)
    requires Linked(t) && SlotsInv(caps, t)
    ensures var t' := Lookup(t, src, now).0; t.active == |t.sessions| ==> t'.active == |t'.sessions|
  {
    RemoveKeeps(caps, t, src);
  }

  lemma LookUpKeeps(cfg: Config, s: State)
    requires Inv(cfg, s) && s.listener.Got? && !s.cleanup.Sweeping?
    ensures Inv(cfg, AfterLookUp(s))
  {
    var src := s.listener.src;
    LookupKeeps(cfg.caps, s.t, src, s.now);
    LookupLeft(s.t, src, s.now);
    LookupGauge(cfg.caps, s.t, src, s.now);
    TableStepKeeps(cfg, s, AfterLookUp(s), Lookup(s.t, src, s.now).0,
                   if src in s.t.sessions && Object(s.t, s.t.sessions[src]).dead then Some(src) else None);
  }

  lemma TableStepKeeps(cfg: Config, s: State, s': State, t': Table, gone: Option<Src>)
    requires Inv(cfg, s) && TableInv(cfg.caps, t') && Left(s.t, t', gone) && t'.pending == s.t.pending
    requires t'.active == |t'.sessions| || s'.cleanup.Sweeping? || s'.forced
    requires s' == s.(t := t', listener := s'.listener, cleanup := s'.cleanup, sweeps := s'.sweeps,
                      cleanupShut := s'.cleanupShut, forced := s'.forced)
    requires s'.listener == s.listener || (!Marking(s.listener) && !Marking(s'.listener))
    ensures Inv(cfg, s')
  {
    LeavingKeepsInv(cfg, s, s', gone);
  }

  lemma MarkKeeps(cfg: Config, s: State)
    requires Inv(cfg, s) && s.listener.Missed?
    ensures Inv(cfg, AfterMark(s))
  {
    MarkKeepsTable(cfg, s);
    LeavingKeepsOwners(s, AfterMark(s), None);
    MarkKeepsPending(s);
    MarkKeepsRest(s);
  }

  lemma MarkKeepsTable(cfg: Config, s: State)
    requires TableInv(cfg.caps, s.t) && s.listener.Missed?
    ensures TableInv(cfg.caps, AfterMark(s).t)
  {
    if AfterMark(s).t != s.t {
      MarkedTableKeeps(cfg.caps, s.t, s.listener.src);
    }
  }

  lemma MarkedTableKeeps(caps: Caps, t: Table, src: Src)
    requires TableInv(caps, t)
    ensures TableInv(caps, Mark(t, src))
  {
    SlotsFrame(caps, t, Mark(t, src));
  }

  lemma MarkKeepsRest(s: State)
    requires GaugeInv(s) && DrainInv(s) && GapInv(s) && s.listener.Missed?
    ensures var s' := AfterMark(s); GaugeInv(s') && DrainInv(s') && GapInv(s')
  {}

  lemma MarkKeepsPending(s: State)
    requires PendingInv(s) && s.listener.Missed?
    ensures PendingInv(AfterMark(s))
  {
    assert forall src :: SetsUp(AfterMark(s), src) <==> SetsUp(s, src);
    assert !Marks(s, s.listener.src);
  }

  lemma AskKeeps(cfg: Config, s: State)
    requires Inv(cfg, s) && Can(cfg, s, AskSlot)
    ensures Inv(cfg, AfterAsk(s, Grant(cfg.caps, s.t, s.listener.src, s.next)))
  {
    var answer := Grant(cfg.caps, s.t, s.listener.src, s.next);
    GrantKeeps(cfg.caps, s.t, s.listener.src, s.next);
    GrantAnswers(cfg, s);
    AnswerKeeps(cfg, s, answer);
  }

  lemma GrantAnswers(cfg: Config, s: State)
    requires Can(cfg, s, AskSlot)
    ensures Answers(s, Grant(cfg.caps, s.t, s.listener.src, s.next))
  {}

  lemma AnswerKeeps(cfg: Config, s: State, answer: (Table, bool))
    requires Inv(cfg, s) && s.listener.Marked? && Answers(s, answer) && TableInv(cfg.caps, answer.0)
    ensures Inv(cfg, AfterAsk(s, answer))
  {
    AskKeepsOwners(s, answer);
    AskKeepsPending(s, answer);
    AskKeepsRest(s, answer);
  }

  lemma AskKeepsRest(s: State, answer: (Table, bool))
    requires GaugeInv(s) && DrainInv(s) && GapInv(s) && s.listener.Marked? && Answers(s, answer)
    ensures var s' := AfterAsk(s, answer); GaugeInv(s') && DrainInv(s') && GapInv(s')
  {}

  /** The answer of the limiter touches only the slots of the new id. */
  ghost predicate Answers(s: State, answer: (Table, bool))
    requires s.listener.Marked?
  {
    var (t, ok) := answer;
    && t.sessions == s.t.sessions && t.objects == s.t.objects && t.pending == s.t.pending && t.active == s.t.active
    && t.permit == s.t.permit
    && t.who == (if ok then s.t.who[s.next := s.listener.src.ip] else s.t.who)
    && t.home == (if ok then s.t.home[s.next := s.listener.src] else s.t.home)
  }

  lemma GrantedKeepsOwners(s: State, s': State)
    requires Linked(s.t) && OwnersInv(s) && s.listener.Marked?
    requires s'.t.sessions == s.t.sessions && s'.t.objects == s.t.objects
    requires s'.t.who == s.t.who[s.next := s.listener.src.ip] && s'.t.home == s.t.home[s.next := s.listener.src]
    requires s'.setups == s.setups && s'.next == s.next + 1
    requires s'.listener == Granted(s.listener.src, s.next, s.listener.gap)
    ensures OwnersInv(s')
  {
    assert s.next !in s.t.home && s.next !in s.t.who;
    forall id <- s'.setups ensures SetupOwns(s', id) {
      assert SetupOwns(s, id);
    }
  }

  lemma AskKeepsOwners(s: State, answer: (Table, bool))
    requires Linked(s.t) && OwnersInv(s) && s.listener.Marked? && Answers(s, answer)
    ensures OwnersInv(AfterAsk(s, answer))
  {
    if answer.1 {
      GrantedKeepsOwners(s, AfterAsk(s, answer));
    } else {
      LeavingKeepsOwners(s, AfterAsk(s, answer), None);
    }
  }

  lemma AskKeepsPending(s: State, answer: (Table, bool))
    requires PendingInv(s) && s.listener.Marked? && Answers(s, answer)
    ensures PendingInv(AfterAsk(s, answer))
  {
    AnsweredKeepsPending(s, AfterAsk(s, answer));
  }

  lemma AnsweredKeepsPending(s: State, s': State)
    requires PendingInv(s) && s.listener.Marked? && s'.setups == s.setups && s'.t.pending == s.t.pending
    requires (s'.listener.Granted? || s'.listener.Refused?) && s'.listener.src == s.listener.src
    ensures PendingInv(s')
  {
    assert forall src :: SetsUp(s', src) <==> SetsUp(s, src);
    assert forall src :: Marks(s', src) <==> Marks(s, src);
  }

  lemma ClearMarkKeeps(cfg: Config, s: State)
    requires Inv(cfg, s) && s.listener.Refused?
    ensures Inv(cfg, AfterClearMark(s))
  {
    var s' := AfterClearMark(s);
    SlotsFrame(cfg.caps, s.t, s'.t);
    LeavingKeepsOwners(s, s', None);
    assert forall src :: SetsUp(s', src) <==> SetsUp(s, src);
    assert Marks(s, s.listener.src);
  }

  lemma SpawnKeeps(cfg: Config, s: State)
    requires Inv(cfg, s) && s.listener.Granted?
    ensures Inv(cfg, AfterSpawn(s))
  {
    SpawnKeepsOwners(s);
    SpawnKeepsPending(s);
  }

  lemma SpawnKeepsOwners(s: State)
    requires OwnersInv(s) && s.listener.Granted?
    ensures OwnersInv(AfterSpawn(s))
  {
    var s' := AfterSpawn(s);
    forall id <- s'.setups ensures SetupOwns(s', id) {
      assert id in s.setups ==> SetupOwns(s, id);
    }
  }

  lemma SpawnKeepsPending(s: State)
    requires OwnersInv(s) && PendingInv(s) && s.listener.Granted?
    ensures PendingInv(AfterSpawn(s))
  {
    var s' := AfterSpawn(s);
    var id, mine := s.listener.id, s.listener.src;
    assert Marks(s, mine);
    forall src ensures SetsUp(s', src) <==> SetsUp(s, src) || src == mine {
      if SetsUp(s, src) {
        var i :| i in s.setups && s.setups[i].src == src;
        assert i in s'.setups && s'.setups[i].src == src;
      }
      assert id in s'.setups && s'.setups[id].src == mine;
    }
    assert !SetsUp(s, mine);
    assert forall i <- s.setups :: s.setups[i].src != mine;
  }

  lemma ForceOneKeeps(cfg: Config, s: State, src: Src)
    requires Inv(cfg, s) && s.listener.Forcing? && src in s.t.sessions
    ensures Inv(cfg, AfterForceOne(s, src))
  {
    KillIsQuiet(s.t, s.t.sessions[src], s.now);
    QuietStepKeeps(cfg, s, AfterForceOne(s, src));
  }

  lemma KillIsQuiet(t: Table, id: Id, now: u64)
    ensures Kill(t, id, now) == t.(objects := Kill(t, id, now).objects)
    ensures t.objects.Keys <= Kill(t, id, now).objects.Keys
  {}

  lemma ForceKeeps(cfg: Config, s: State)
    requires Inv(cfg, s) && s.listener.Forcing?
    ensures Inv(cfg, AfterForce(s))
  {
    SlotsFrame(cfg.caps, s.t, AfterForce(s).t);
    LeavingKeepsInv(cfg, s, AfterForce(s), None);
  }

  // ── Set-up tasks ──────────────────────────────────────────────────────────

  /** A set-up task that stays registered keeps `pending` as it is. */
  lemma StayingKeepsPending(s: State, id: Id, pc: SetupPc, s': State)
    requires PendingInv(s) && id in s.setups && s'.setups == SetPc(s, id, pc)
    requires s'.t.pending == s.t.pending && s'.listener == s.listener
    ensures PendingInv(s')
  {
    assert s'.setups.Keys == s.setups.Keys;
    assert forall i <- s.setups :: s'.setups[i].src == s.setups[i].src;
    forall src ensures SetsUp(s', src) <==> SetsUp(s, src) {
      if SetsUp(s, src) {
        var i :| i in s.setups && s.setups[i].src == src;
        assert i in s'.setups && s'.setups[i].src == src;
      }
    }
    assert forall src :: Marks(s', src) <==> Marks(s, src);
  }

  lemma DropKeeps(cfg: Config, s: State, id: Id, t: Table)
    requires Inv(cfg, s) && id in s.setups && Holding(s.setups[id].pc)
    requires TableInv(cfg.caps, t)
    requires t.sessions == s.t.sessions && t.home == s.t.home && t.pending == s.t.pending && t.active == s.t.active
    requires s.t.objects.Keys <= t.objects.Keys && t.who == s.t.who - {id}
    ensures Inv(cfg, s.(setups := SetPc(s, id, Clearing), t := t))
  {
    var s' := s.(setups := SetPc(s, id, Clearing), t := t);
    DropKeepsOwners(s, id, s');
    StayingKeepsPending(s, id, Clearing, s');
    PcKeepsGap(s, id, Clearing, s');
  }

  lemma DropKeepsOwners(s: State, id: Id, s': State)
    requires OwnersInv(s) && id in s.setups && Holding(s.setups[id].pc)
    requires s'.t.sessions == s.t.sessions && s'.t.home == s.t.home && s'.t.who == s.t.who - {id}
    requires s.t.objects.Keys <= s'.t.objects.Keys
    requires s'.setups == SetPc(s, id, Clearing) && s'.listener == s.listener && s'.next == s.next
    ensures OwnersInv(s')
  {
    forall i <- s'.setups ensures SetupOwns(s', i) {
      assert SetupOwns(s, i);
    }
    assert SetupOwns(s, id);
  }

  /** Moving on without touching the map. */
  lemma PcKeepsGap(s: State, id: Id, pc: SetupPc, s': State)
    requires GapInv(s) && id in s.setups && Holding(s.setups[id].pc)
    requires s'.setups == SetPc(s, id, pc) && s'.t.sessions == s.t.sessions && s'.listener == s.listener
    ensures GapInv(s')
  {}

  lemma PcKeepsOwners(s: State, id: Id, pc: SetupPc, s': State)
    requires OwnersInv(s) && id in s.setups && Holding(s.setups[id].pc) && Holding(pc)
    requires s'.t.sessions == s.t.sessions && s'.t.home == s.t.home && s'.t.who == s.t.who
    requires s.t.objects.Keys <= s'.t.objects.Keys && id in s'.t.objects
    requires s'.setups == SetPc(s, id, pc) && s'.listener == s.listener && s'.next == s.next
    ensures OwnersInv(s')
  {
    forall i <- s'.setups ensures SetupOwns(s', i) {
      assert SetupOwns(s, i);
    }
  }

  lemma OpenFailsKeeps(cfg: Config, s: State, id: Id)
    requires Inv(cfg, s) && AtPc(s, id, Opening)
    ensures Inv(cfg, AfterOpenFails(s, id))
  {
    assert SetupOwns(s, id);
    DropOtherSlotKeeps(cfg.caps, s.t, id);
    DropKeeps(cfg, s, id, DropSlot(s.t, id));
  }

  lemma OpensKeeps(cfg: Config, s: State, id: Id)
    requires Inv(cfg, s) && AtPc(s, id, Opening)
    ensures Inv(cfg, AfterOpens(s, id))
  {
    var s' := AfterOpens(s, id);
    SlotsFrame(cfg.caps, s.t, s'.t);
    PcKeepsOwners(s, id, Open, s');
    StayingKeepsPending(s, id, Open, s');
    PcKeepsGap(s, id, Open, s');
  }

  lemma CheckKeeps(cfg: Config, s: State, id: Id)
    requires Inv(cfg, s) && AtPc(s, id, Open)
    ensures Inv(cfg, AfterCheck(s, id))
  {
    if s.force {
      CheckFailsKeeps(cfg, s, id);
    } else {
      var s' := AfterCheck(s, id);
      assert SetupOwns(s, id);
      PcKeepsOwners(s, id, Inserting, s');
      StayingKeepsPending(s, id, Inserting, s');
      PcKeepsGap(s, id, Inserting, s');
    }
  }

  lemma CheckFailsKeeps(cfg: Config, s: State, id: Id)
    requires Inv(cfg, s) && AtPc(s, id, Open) && s.force
    ensures Inv(cfg, AfterCheck(s, id))
  {
    assert SetupOwns(s, id);
    var k := Kill(s.t, id, s.now);
    KillKeeps(cfg.caps, s.t, id, s.now);
    KillIsQuiet(s.t, id, s.now);
    DropOtherSlotKeeps(cfg.caps, k, id);
    DropKeeps(cfg, s, id, DropSlot(k, id));
  }

  lemma InsertSessionKeeps(cfg: Config, s: State, id: Id)
    requires Inv(cfg, s) && AtPc(s, id, Inserting)
    ensures Inv(cfg, AfterInsert(s, id))
  {
    var s' := AfterInsert(s, id);
    assert SetupOwns(s, id);
    InsertKeeps(cfg.caps, s.t, s.setups[id].src, id, s.now);
    InsertFacts(s.t, s.setups[id].src, id, s.now);
    PutKeepsOwners(s, id, s');
    StayingKeepsPending(s, id, Clearing, s');
    InsertKeepsGap(s, id);
  }

  lemma PutKeepsOwners(s: State, id: Id, s': State)
    requires Linked(s.t) && OwnersInv(s) && AtPc(s, id, Inserting)
    requires var src := s.setups[id].src;
             && s'.t.sessions == s.t.sessions[src := id] && s'.t.home == s.t.home
             && s'.t.who == (if src in s.t.sessions then s.t.who - {s.t.sessions[src]} else s.t.who)
             && s.t.objects.Keys <= s'.t.objects.Keys
    requires s'.setups == SetPc(s, id, Clearing) && s'.listener == s.listener && s'.next == s.next
    ensures OwnersInv(s')
  {
    forall i <- s'.setups ensures SetupOwns(s', i) {
      PutKeepsSetup(s, id, s', i);
    }
    PutKeepsHolders(s, id, s');
    if s.listener.Granted? {
      PutKeepsGrant(s, id, s');
    }
  }

  lemma PutKeepsGrant(s: State, id: Id, s': State)
    requires Linked(s.t) && OwnersInv(s) && AtPc(s, id, Inserting)
    requires s.listener.Granted? && s'.listener == s.listener
    requires var src := s.setups[id].src;
             && s'.t.sessions == s.t.sessions[src := id] && s'.t.home == s.t.home
             && s'.t.who == (if src in s.t.sessions then s.t.who - {s.t.sessions[src]} else s.t.who)
    ensures s'.listener.id in s'.t.who && !InTable(s'.t, s'.listener.id)
  {
    var mine := s.listener.id;
    assert SetupOwns(s, id) && mine != id;
  }

  lemma PutKeepsHolders(s: State, id: Id, s': State)
    requires Linked(s.t) && OwnersInv(s) && AtPc(s, id, Inserting)
    requires var src := s.setups[id].src;
             && s'.t.sessions == s.t.sessions[src := id] && s'.t.home == s.t.home
             && s'.t.who == (if src in s.t.sessions then s.t.who - {s.t.sessions[src]} else s.t.who)
    requires s'.setups == SetPc(s, id, Clearing) && s'.listener == s.listener
    ensures forall i <- s'.t.who :: InTable(s'.t, i) || HeldBySetup(s', i) || HeldByListener(s', i)
  {
    assert SetupOwns(s, id);
  }

  lemma PutKeepsSetup(s: State, id: Id, s': State, i: Id)
    requires Linked(s.t) && OwnersInv(s) && AtPc(s, id, Inserting) && i in s.setups
    requires var src := s.setups[id].src;
             && s'.t.sessions == s.t.sessions[src := id] && s'.t.home == s.t.home
             && s'.t.who == (if src in s.t.sessions then s.t.who - {s.t.sessions[src]} else s.t.who)
             && s.t.objects.Keys <= s'.t.objects.Keys
    requires s'.setups == SetPc(s, id, Clearing)
    ensures SetupOwns(s', i)
  {
    assert SetupOwns(s, i);
  }

  lemma InsertKeepsGap(s: State, id: Id)
    requires PendingInv(s) && GapInv(s) && AtPc(s, id, Inserting)
    ensures GapInv(AfterInsert(s, id))
  {
    var mine := s.setups[id].src;
    assert SetsUp(s, mine);
    assert !Marks(s, mine);
  }

  lemma SetupEndsKeeps(cfg: Config, s: State, id: Id)
    requires Inv(cfg, s) && AtPc(s, id, Clearing)
    ensures Inv(cfg, AfterSetup(s, id))
  {
    var s' := AfterSetup(s, id);
    SlotsFrame(cfg.caps, s.t, s'.t);
    forall i <- s'.setups ensures SetupOwns(s', i) {
      assert SetupOwns(s, i);
    }
    SetupEndsKeepsPending(s, id);
  }

  lemma SetupEndsKeepsPending(s: State, id: Id)
    requires PendingInv(s) && AtPc(s, id, Clearing)
    ensures PendingInv(AfterSetup(s, id))
  {
    var s' := AfterSetup(s, id);
    var mine := s.setups[id].src;
    assert SetsUp(s, mine);
    forall src ensures SetsUp(s', src) <==> SetsUp(s, src) && src != mine {
      if SetsUp(s, src) && src != mine {
        var i :| i in s.setups && s.setups[i].src == src;
        assert i in s'.setups && s'.setups[i].src == src;
      }
    }
    assert forall src :: Marks(s', src) <==> Marks(s, src);
  }

  // ── Cleanup ───────────────────────────────────────────────────────────────

  lemma SweepKeeps(cfg: Config, s: State, src: Src)
    requires Inv(cfg, s) && s.cleanup.Sweeping?
    ensures Inv(cfg, AfterSweepOne(cfg, s, src))
  {
    var now := s.cleanup.now;
    SweepOneKeeps(cfg.caps, cfg.idleSecs, s.t, src, now);
    SweepLeft(cfg.idleSecs, s.t, src, now);
    SweepKeepsPendingSet(cfg.idleSecs, s.t, src, now);
    SweptTableKeeps(cfg, s, src, SweepOne(cfg.idleSecs, s.t, src, now),
                    if src in s.t.sessions && Expired(cfg.idleSecs, s.t, src, now) then Some(src) else None);
  }

  lemma SweptTableKeeps(cfg: Config, s: State, src: Src, t': Table, gone: Option<Src>)
    requires Inv(cfg, s) && s.cleanup.Sweeping?
    requires TableInv(cfg.caps, t') && Left(s.t, t', gone) && t'.pending == s.t.pending
    ensures Inv(cfg, s.(t := t', cleanup := Sweeping(s.cleanup.now, s.cleanup.todo - {src})))
  {
    TableStepKeeps(cfg, s, s.(t := t', cleanup := Sweeping(s.cleanup.now, s.cleanup.todo - {src})), t', gone);
  }

  lemma SweepKeepsPendingSet(idleSecs: u64, t: Table, src: Src, now: u64)
    requires Linked(t)
    ensures SweepOne(idleSecs, t, src, now).pending == t.pending
  {
    RemoveShape(t, src);
    if src in t.sessions {
      KillIsQuiet(t, t.sessions[src], now);
      RemoveShape(Kill(t, t.sessions[src], now), src);
    }
  }

  lemma SweepLeft(idleSecs: u64, t: Table, src: Src, now: u64)
    requires Linked(t)
    ensures Left(t, SweepOne(idleSecs, t, src, now),
                 if src in t.sessions && Expired(idleSecs, t, src, now) then Some(src) else None)
  {
    if src in t.sessions && Expired(idleSecs, t, src, now) {
      if Object(t, t.sessions[src]).dead {
        RemoveLeft(t, src);
      } else {
        KillIsQuiet(t, t.sessions[src], now);
        RemoveLeft(Kill(t, t.sessions[src], now), src);
      }
    }
  }

  lemma SweepEndsKeeps(cfg: Config, s: State)
    requires Inv(cfg, s)
    ensures Inv(cfg, AfterSweep(s))
  {
    SlotsFrame(cfg.caps, s.t, AfterSweep(s).t);
    TableStepKeeps(cfg, s, AfterSweep(s), AfterSweep(s).t, None);
  }

  // ── All steps ─────────────────────────────────────────────────────────────

  predicate OfListener(e: Event) {
    || e.StartDrain? || e.Packet? || e.LookUp? || e.MarkPending? || e.AskSlot? || e.ClearMark? || e.Spawn?
    || e.DrainReadsMap? || e.DrainReadsPending? || e.ForceBegins? || e.ForceOne? || e.ForceEnds?
  }

  predicate OfSetup(e: Event) {
    e.OpenFails? || e.OpenSucceeds? || e.CheckForce? || e.InsertSession? || e.SetupEnds?
  }

  lemma ListenerStepKeeps(cfg: Config, s: State, e: Event)
    requires Inv(cfg, s) && Can(cfg, s, e) && OfListener(e)
    ensures Inv(cfg, Do(cfg, s, e))
  {
    if e.LookUp? {
      LookUpKeeps(cfg, s);
    } else if e.MarkPending? {
      MarkKeeps(cfg, s);
    } else if e.AskSlot? {
      AskKeeps(cfg, s);
    } else if e.ClearMark? {
      ClearMarkKeeps(cfg, s);
    } else if e.Spawn? {
      SpawnKeeps(cfg, s);
    } else {
      IdleListenerKeeps(cfg, s, e);
    }
  }

  predicate OfAdmission(e: Event) {
    e.LookUp? || e.MarkPending? || e.AskSlot? || e.ClearMark? || e.Spawn?
  }

  lemma IdleListenerKeeps(cfg: Config, s: State, e: Event)
    requires Inv(cfg, s) && Can(cfg, s, e) && OfListener(e) && !OfAdmission(e)
    ensures Inv(cfg, Do(cfg, s, e))
  {
    if e.ForceOne? {
      ForceOneKeeps(cfg, s, e.src);
    } else if e.ForceEnds? {
      ForceKeeps(cfg, s);
    } else {
      IdleListenerIsQuiet(cfg, s, e);
      QuietStepKeeps(cfg, s, Do(cfg, s, e));
    }
  }

  lemma IdleListenerIsQuiet(cfg: Config, s: State, e: Event)
    requires Can(cfg, s, e) && OfListener(e) && !OfAdmission(e) && !e.ForceOne? && !e.ForceEnds?
    ensures var s' := Do(cfg, s, e);
            && s' == s.(listener := s'.listener, draining := s'.draining, cleanupShut := s'.cleanupShut)
            && !Marking(s.listener) && !Marking(s'.listener)
  {
    if e.DrainReadsPending? {
      assert Do(cfg, s, e) == AfterDrainTest(s);
    } else {
      SelectIsQuiet(cfg, s, e);
    }
  }

  lemma SelectIsQuiet(cfg: Config, s: State, e: Event)
    requires Can(cfg, s, e) && (e.StartDrain? || e.Packet? || e.DrainReadsMap? || e.ForceBegins?)
    ensures s.listener == Select && !Marking(Do(cfg, s, e).listener)
    ensures Do(cfg, s, e) == s.(listener := Do(cfg, s, e).listener, draining := s.draining || e.StartDrain?)
  {}

  lemma SetupStepKeeps(cfg: Config, s: State, e: Event)
    requires Inv(cfg, s) && Can(cfg, s, e) && OfSetup(e)
    ensures Inv(cfg, Do(cfg, s, e))
  {
    match e {
      case OpenFails(id) => OpenFailsKeeps(cfg, s, id);
      case OpenSucceeds(id) => OpensKeeps(cfg, s, id);
      case CheckForce(id) => CheckKeeps(cfg, s, id);
      case InsertSession(id) => InsertSessionKeeps(cfg, s, id);
      case SetupEnds(id) => SetupEndsKeeps(cfg, s, id);
    }
  }

  lemma OtherStepKeeps(cfg: Config, s: State, e: Event)
    requires Inv(cfg, s) && Can(cfg, s, e) && !OfListener(e) && !OfSetup(e)
    ensures Inv(cfg, Do(cfg, s, e))
  {
    if e.Sweep? {
      SweepKeeps(cfg, s, e.src);
    } else if e.SweepEnds? {
      SweepEndsKeeps(cfg, s);
    } else {
      if e.Die? {
        KillIsQuiet(s.t, e.id, s.now);
      }
      QuietStepKeeps(cfg, s, Do(cfg, s, e));
    }
  }

  lemma StepKeepsInv(cfg: Config, s: State, e: Event)
    requires Inv(cfg, s) && Can(cfg, s, e)
    ensures Inv(cfg, Do(cfg, s, e))
  {
    if OfListener(e) {
      ListenerStepKeeps(cfg, s, e);
    } else if OfSetup(e) {
      SetupStepKeeps(cfg, s, e);
    } else {
      OtherStepKeeps(cfg, s, e);
    }
  }

  lemma {:induction false} RunKeepsInv(cfg: Config, s: State, es: seq<Event>)
    requires Inv(cfg, s) && Run(cfg, s, es).Some?
    ensures Inv(cfg, Run(cfg, s, es).value)
    decreases |es|
  {
    if es != [] {
      StepKeepsInv(cfg, s, es[0]);
      RunKeepsInv(cfg, Do(cfg, s, es[0]), es[1..]);
    }
  }
}
