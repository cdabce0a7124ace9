/** Whole-run properties of the UDP proxy's session table. */
module UdpTheorems {
  import opened Machine
  import opened Net
  import opened Limits
  import opened Slots
  import opened UdpTable
  import opened UdpProxy
  import opened UdpInvariants

  // ── The limiter counts sessions and set-ups ───────────────────────────────

  /** Does `src` fall under `ip`, or under everybody? */
  predicate Under(ip: Option<IpAddr>, src: Src) {
    ip.None? || src.ip == ip.value
  }

  function SessionsOf(s: State, ip: Option<IpAddr>): set<Src> {
    set src | src in s.t.sessions && Under(ip, src)
  }

  /** Set-up tasks that still hold their slot. */
  function SetupsOf(s: State, ip: Option<IpAddr>): set<Id> {
    set id | id in s.setups && Holding(s.setups[id].pc) && Under(ip, s.setups[id].src)
  }

  /** The slot between admission and the start of the set-up task. */
  function InHand(s: State, ip: Option<IpAddr>): set<Id> {
    if s.listener.Granted? && Under(ip, s.listener.src) then {s.listener.id} else {}
  }

  function SlotsOf(s: State, ip: Option<IpAddr>): set<Id> {
    set id | id in s.t.who && (ip.None? || s.t.who[id] == ip.value)
  }

  function Image(m: map<Src, Id>, sources: set<Src>): set<Id>
    requires sources <= m.Keys
  {
    set src | src in sources :: m[src]
  }

  lemma {:induction false} ImageSize(m: map<Src, Id>, home: map<Id, Src>, sources: set<Src>)
    requires sources <= m.Keys && forall src <- sources :: m[src] in home && home[m[src]] == src
    ensures |Image(m, sources)| == |sources|
  {
    if sources != {} {
      var src :| src in sources;
      ImageSize(m, home, sources - {src});
      assert Image(m, sources) == Image(m, sources - {src}) + {m[src]};
    }
  }

  lemma SlotsSplit(s: State, ip: Option<IpAddr>)
    requires Linked(s.t) && OwnersInv(s)
    ensures SlotsOf(s, ip) == Image(s.t.sessions, SessionsOf(s, ip)) + SetupsOf(s, ip) + InHand(s, ip)
    ensures Image(s.t.sessions, SessionsOf(s, ip)) !! SetupsOf(s, ip) !! InHand(s, ip)
  {
    forall id <- SlotsOf(s, ip) ensures id in Image(s.t.sessions, SessionsOf(s, ip)) + SetupsOf(s, ip) + InHand(s, ip) {
      if InTable(s.t, id) {
        assert s.t.home[id] in SessionsOf(s, ip);
      } else if HeldBySetup(s, id) {
        assert SetupOwns(s, id);
      }
    }
    forall id <- SetupsOf(s, ip) ensures id in SlotsOf(s, ip) && !InTable(s.t, id) {
      assert SetupOwns(s, id);
    }
  }

  /** In every reachable state the limiter's numbers, in total and per address, are the
      sessions in the map plus the slots of set-ups under way, so that sum respects both caps:
      through failed opens, evictions, replacements and shutdown. */
  lemma LimiterCountsSessions(cfg: Config, start: u64, es: seq<Event>, s: State, ip: IpAddr)
    requires Run(cfg, Init(start), es) == Some(s)
    ensures s.t.ledger.total == |s.t.sessions| + |SetupsOf(s, None)| + |InHand(s, None)|
    ensures Count(s.t.ledger, ip) == |SessionsOf(s, Some(ip))| + |SetupsOf(s, Some(ip))| + |InHand(s, Some(ip))|
    ensures cfg.caps.maxTotal > 0 ==> |s.t.sessions| + |SetupsOf(s, None)| <= cfg.caps.maxTotal
    ensures cfg.caps.maxPerIp > 0 ==> |SessionsOf(s, Some(ip))| + |SetupsOf(s, Some(ip))| <= cfg.caps.maxPerIp
  {
    InitInv(cfg, start);
    RunKeepsInv(cfg, Init(start), es);
    CountSlots(s, None);
    CountSlots(s, Some(ip));
    assert SessionsOf(s, None) == s.t.sessions.Keys;
    LedgerCounts(cfg.caps, s.t, ip);
    assert SlotsOf(s, None) == s.t.who.Keys;
    assert SlotsOf(s, Some(ip)) == OwnedBy(s.t.who, ip);
  }

  lemma LedgerCounts(caps: Caps, t: Table, ip: IpAddr)
    requires SlotsInv(caps, t)
    ensures t.ledger.total == |t.who.Keys| && Count(t.ledger, ip) == |OwnedBy(t.who, ip)|
    ensures caps.maxTotal > 0 ==> t.ledger.total <= caps.maxTotal
    ensures caps.maxPerIp > 0 ==> Count(t.ledger, ip) <= caps.maxPerIp
  {
    assert |t.who| == |t.who.Keys|;
    assert Count(t.ledger, ip) == t.held[ip];
  }

  lemma CountSlots(s: State, ip: Option<IpAddr>)
    requires Linked(s.t) && OwnersInv(s)
    ensures |SlotsOf(s, ip)| == |SessionsOf(s, ip)| + |SetupsOf(s, ip)| + |InHand(s, ip)|
  {
    SlotsSplit(s, ip);
    ImageSize(s.t.sessions, s.t.home, SessionsOf(s, ip));
  }

  // ── Counters and pending marks ────────────────────────────────────────────

  /** In every reachable state: every session ever counted as opened is in the map, was closed
      under exactly one of the two eviction labels, or was replaced; the gauge shows the map
      unless it is being swept or the force arm ran; and `pending` is exactly the sources just
      marked or being set up, each by a single task. */
  lemma Bookkeeping(cfg: Config, start: u64, es: seq<Event>, s: State)
    requires Run(cfg, Init(start), es) == Some(s)
    ensures s.t.created == |s.t.sessions| + s.t.idleClosed + s.t.errorClosed + s.t.replaced
    ensures MapFree(s) && !s.forced ==> s.t.active == |s.t.sessions|
    ensures forall src :: src in s.t.pending <==> Marks(s, src) || SetsUp(s, src)
    ensures forall i <- s.setups, j <- s.setups :: s.setups[i].src == s.setups[j].src ==> i == j
    ensures forall src :: Marks(s, src) ==> !SetsUp(s, src)
  {
    InitInv(cfg, start);
    RunKeepsInv(cfg, Init(start), es);
  }

  // ── Replacement ───────────────────────────────────────────────────────────

  /** An insert finds a session in its place only if that session was already there when the
      source was marked: the gap between the listener's two critical sections. No other step
      replaces anything. */
  lemma ReplacesOnlyThroughGap(cfg: Config, s: State, e: Event)
    requires Inv(cfg, s) && Can(cfg, s, e)
    ensures Do(cfg, s, e).t.replaced ==
            s.t.replaced + if e.InsertSession? && s.setups[e.id].src in s.t.sessions then 1 else 0
    ensures e.InsertSession? && s.setups[e.id].src in s.t.sessions ==> s.setups[e.id].gap
  {
    if OfListener(e) {
      ListenerReplacesNothing(cfg, s, e);
    } else if OfSetup(e) {
      SetupReplaces(cfg, s, e);
    } else {
      OthersReplaceNothing(cfg, s, e);
    }
  }

  lemma SetupReplaces(cfg: Config, s: State, e: Event)
    requires GapInv(s) && Can(cfg, s, e) && OfSetup(e)
    ensures Do(cfg, s, e).t.replaced ==
            s.t.replaced + if e.InsertSession? && s.setups[e.id].src in s.t.sessions then 1 else 0
    ensures e.InsertSession? && s.setups[e.id].src in s.t.sessions ==> s.setups[e.id].gap
  {
    if e.InsertSession? {
      assert Do(cfg, s, e) == AfterInsert(s, e.id);
    } else {
      OtherSetupsReplaceNothing(cfg, s, e);
    }
  }

  lemma OtherSetupsReplaceNothing(cfg: Config, s: State, e: Event)
    requires Can(cfg, s, e) && OfSetup(e) && !e.InsertSession?
    ensures Do(cfg, s, e).t.replaced == s.t.replaced
  {
    if e.CheckForce? {
      KillIsQuiet(s.t, e.id, s.now);
      assert Do(cfg, s, e) == AfterCheck(s, e.id);
    } else if e.OpenFails? {
      assert Do(cfg, s, e) == AfterOpenFails(s, e.id);
    }
  }

  lemma ListenerReplacesNothing(cfg: Config, s: State, e: Event)
    requires Can(cfg, s, e) && OfListener(e)
    ensures Do(cfg, s, e).t.replaced == s.t.replaced
  {
    if e.LookUp? {
      RemoveReplacesNothing(s.t, s.listener.src);
    } else if e.AskSlot? {
      assert Grant(cfg.caps, s.t, s.listener.src, s.next).0.replaced == s.t.replaced;
    } else if OfAdmission(e) {
    } else if e.ForceOne? {
      KillIsQuiet(s.t, s.t.sessions[e.src], s.now);
    } else if e.ForceEnds? {
    } else {
      IdleListenerIsQuiet(cfg, s, e);
    }
  }

  lemma RemoveReplacesNothing(t: Table, src: Src)
    ensures Remove(t, src).replaced == t.replaced
  {}

  lemma OthersReplaceNothing(cfg: Config, s: State, e: Event)
    requires Can(cfg, s, e) && !OfListener(e) && !OfSetup(e)
    ensures Do(cfg, s, e).t.replaced == s.t.replaced
    ensures Do(cfg, s, e).setups == s.setups && Do(cfg, s, e).listener == s.listener
  {
    if e.Sweep? {
      SweepReplacesNothing(cfg, s.t, e.src, s.cleanup.now);
    } else if e.Die? {
      KillIsQuiet(s.t, e.id, s.now);
    }
  }

  lemma SweepReplacesNothing(cfg: Config, t: Table, src: Src, now: u64)
    ensures SweepOne(cfg.idleSecs, t, src, now).replaced == t.replaced
  {
    RemoveReplacesNothing(t, src);
    if src in t.sessions {
      KillIsQuiet(t, t.sessions[src], now);
      RemoveReplacesNothing(Kill(t, t.sessions[src], now), src);
    }
  }

  /** Conversely, from any moment where the listener is about to mark a source that by now has
      a session, a set-up that goes well does replace it. */
  lemma GapReplaces(cfg: Config, s: State)
    requires Inv(cfg, s) && s.listener.Missed? && MapFree(s) && !s.draining && !s.force
    requires s.listener.src !in s.t.pending && s.listener.src in s.t.sessions
    requires |s.t.held| < U32_MAX && Verdict(cfg.caps, s.t.ledger, s.listener.src.ip) == None
    ensures var id := s.next;
            var s' := Run(cfg, s, [MarkPending, AskSlot, Spawn, OpenSucceeds(id), CheckForce(id), InsertSession(id)]);
            s'.Some? && s'.value.t.replaced == s.t.replaced + 1
  {
    AcquireIsSound(cfg.caps, s.t.ledger, s.t.held, s.listener.src.ip);
    GapRun(cfg, s);
  }

  lemma GapRun(cfg: Config, s: State)
    requires s.listener.Missed? && MapFree(s) && !s.draining && !s.force
    requires s.listener.src !in s.t.pending && s.listener.src in s.t.sessions
    requires |s.t.held| < U32_MAX && NoOverflow(s.t.ledger, s.listener.src.ip)
    requires Verdict(cfg.caps, s.t.ledger, s.listener.src.ip) == None
    ensures var id := s.next;
            var s' := Run(cfg, s, [MarkPending, AskSlot, Spawn, OpenSucceeds(id), CheckForce(id), InsertSession(id)]);
            s'.Some? && s'.value.t.replaced == s.t.replaced + 1
  {
    var id, src := s.next, s.listener.src;
    var rest := [OpenSucceeds(id), CheckForce(id), InsertSession(id)];
    Admitted(cfg, s);
    var s3 := Do(cfg, Do(cfg, Do(cfg, s, MarkPending), AskSlot), Spawn);
    ThreeThen(cfg, s, MarkPending, AskSlot, Spawn, rest);
    SetUpInserts(cfg, s3, id, src);
    assert [MarkPending, AskSlot, Spawn] + rest ==
           [MarkPending, AskSlot, Spawn, OpenSucceeds(id), CheckForce(id), InsertSession(id)];
  }

  // ── Re-creation ───────────────────────────────────────────────────────────

  /** A packet for a dead session re-creates it: unless the proxy drains or a set-up for the
      source is under way, the listener evicts the session, counts an error and starts a set-up
      for the source, for which there is always room under both caps. */
  lemma DeadIsRecreated(cfg: Config, s: State)
    requires Inv(cfg, s) && s.listener.Got? && MapFree(s) && !s.draining && s.listener.src !in s.t.pending
    requires s.listener.src in s.t.sessions && Object(s.t, s.t.sessions[s.listener.src]).dead
    ensures var s' := Run(cfg, s, [LookUp, MarkPending, AskSlot, Spawn]);
            && s'.Some? && s'.value.listener == Select
            && s'.value.t.sessions == s.t.sessions - {s.listener.src}
            && s'.value.t.errorClosed == s.t.errorClosed + 1 && s'.value.t.rejected == s.t.rejected
            && AtPc(s'.value, s.next, Opening) && s'.value.setups[s.next].src == s.listener.src
            && s.listener.src in s'.value.t.pending
  {
    var src := s.listener.src;
    LookupAnswers(s.t, src, s.now);
    EvictionMakesRoom(cfg.caps, s.t, src);
    RemoveShape(s.t, src);
    LookUpKeeps(cfg, s);
    Admitted(cfg, AfterLookUp(s));
    RecreationRun(cfg, s, AfterLookUp(s));
  }

  /** So does the first packet of a source, if both caps leave room. */
  lemma NewSourceIsSetUp(cfg: Config, s: State)
    requires Inv(cfg, s) && s.listener.Got? && MapFree(s) && !s.draining && s.listener.src !in s.t.pending
    requires s.listener.src !in s.t.sessions && |s.t.held| < U32_MAX
    requires cfg.caps.maxTotal > 0 ==> |s.t.held| < cfg.caps.maxTotal
    requires cfg.caps.maxPerIp > 0 ==> s.t.held[s.listener.src.ip] < cfg.caps.maxPerIp
    ensures var s' := Run(cfg, s, [LookUp, MarkPending, AskSlot, Spawn]);
            && s'.Some? && s'.value.listener == Select && s'.value.t.rejected == s.t.rejected
            && AtPc(s'.value, s.next, Opening) && s'.value.setups[s.next].src == s.listener.src
            && s.listener.src in s'.value.t.pending
  {
    assert AfterLookUp(s) == s.(listener := Missed(s.listener.src));
    RoomMeansAdmitted(cfg.caps, s.t, s.listener.src.ip);
    Admitted(cfg, AfterLookUp(s));
    RecreationRun(cfg, s, AfterLookUp(s));
  }

  lemma RoomMeansAdmitted(caps: Caps, t: Table, ip: IpAddr)
    requires SlotsInv(caps, t) && |t.held| < U32_MAX
    requires caps.maxTotal > 0 ==> |t.held| < caps.maxTotal
    requires caps.maxPerIp > 0 ==> t.held[ip] < caps.maxPerIp
    ensures NoOverflow(t.ledger, ip) && Verdict(caps, t.ledger, ip) == None
  {
    AcquireIsSound(caps, t.ledger, t.held, ip);
    assert Count(t.ledger, ip) == t.held[ip];
  }

  /** A set-up that goes well ends with its session in the map, alive and stamped, counted once,
      with the gauge right, the cleanup task notified and the mark cleared. */
  lemma SetupCompletes(cfg: Config, s: State, id: Id)
    requires Inv(cfg, s) && AtPc(s, id, Opening) && MapFree(s) && !s.force
    ensures var src, s' := s.setups[id].src,
                           Run(cfg, s, [OpenSucceeds(id), CheckForce(id), InsertSession(id), SetupEnds(id)]);
            && s'.Some? && src in s'.value.t.sessions && s'.value.t.sessions[src] == id
            && Object(s'.value.t, id).last == s.now && !Object(s'.value.t, id).dead
            && s'.value.t.created == s.t.created + 1 && s'.value.t.active == |s'.value.t.sessions|
            && s'.value.t.permit && src !in s'.value.t.pending && id !in s'.value.setups
  {
    var src := s.setups[id].src;
    var s1 := AfterOpens(s, id);
    var s2 := s1.(setups := SetPc(s1, id, Inserting));
    var s3, s4 := AfterInsert(s2, id), AfterSetup(AfterInsert(s2, id), id);
    assert AfterCheck(s1, id) == s2;
    SetupRun(cfg, s, id, s1, s2, s3, s4);
    assert Linked(s2.t) && SetupOwns(s, id) by {
      StepKeepsInv(cfg, s, OpenSucceeds(id));
    }
    Inserted(s2.t, src, id, s.now);
  }

  lemma SetupRun(cfg: Config, s: State, id: Id, s1: State, s2: State, s3: State, s4: State)
    requires AtPc(s, id, Opening) && s1 == AfterOpens(s, id) && MapFree(s2)
    requires AtPc(s1, id, Open) && s2 == AfterCheck(s1, id)
    requires AtPc(s2, id, Inserting) && s3 == AfterInsert(s2, id) && AtPc(s3, id, Clearing) && s4 == AfterSetup(s3, id)
    ensures Run(cfg, s, [OpenSucceeds(id), CheckForce(id), InsertSession(id), SetupEnds(id)]) == Some(s4)
  {
    assert Do(cfg, s, OpenSucceeds(id)) == s1 && Do(cfg, s1, CheckForce(id)) == s2;
    FourRun(cfg, s, OpenSucceeds(id), CheckForce(id), InsertSession(id), SetupEnds(id), s1, s2, s3);
  }

  lemma FourRun(cfg: Config, s: State, a: Event, b: Event, c: Event, d: Event, s1: State, s2: State, s3: State)
    requires Can(cfg, s, a) && Do(cfg, s, a) == s1 && Can(cfg, s1, b) && Do(cfg, s1, b) == s2
    requires Can(cfg, s2, c) && Do(cfg, s2, c) == s3 && Can(cfg, s3, d)
    ensures Run(cfg, s, [a, b, c, d]) == Some(Do(cfg, s3, d))
  {
    ThreeThen(cfg, s, a, b, c, [d]);
    RunCons(cfg, s3, d, []);
    assert [d] + [] == [d];
    assert [a, b, c] + [d] == [a, b, c, d];
  }

  lemma Inserted(t: Table, src: Src, id: Id, now: u64)
    requires Linked(t)
    ensures var t' := Insert(t, src, id, now);
            && t'.sessions == t.sessions[src := id] && t'.created == t.created + 1 && t'.permit
            && t'.active == |t'.sessions| && Object(t', id) == Object(t, id).(joinedAt := now)
  {
    InsertFacts(t, src, id, now);
    RemoveShape(t, src);
    PutSize(Remove(t, src).sessions, src, id);
    Reput(t.sessions, src, id);
  }

  lemma RecreationRun(cfg: Config, s: State, s1: State)
    requires Can(cfg, s, LookUp) && s1 == AfterLookUp(s)
    requires Can(cfg, s1, MarkPending) && Can(cfg, Do(cfg, s1, MarkPending), AskSlot)
    requires Can(cfg, Do(cfg, Do(cfg, s1, MarkPending), AskSlot), Spawn)
    ensures Run(cfg, s, [LookUp, MarkPending, AskSlot, Spawn]) ==
            Some(Do(cfg, Do(cfg, Do(cfg, s1, MarkPending), AskSlot), Spawn))
  {
    ThreeThen(cfg, s1, MarkPending, AskSlot, Spawn, []);
    RunCons(cfg, s, LookUp, [MarkPending, AskSlot, Spawn]);
    assert [MarkPending, AskSlot, Spawn] + [] == [MarkPending, AskSlot, Spawn];
    assert [LookUp] + [MarkPending, AskSlot, Spawn] == [LookUp, MarkPending, AskSlot, Spawn];
  }

  lemma ThreeThen(cfg: Config, s: State, a: Event, b: Event, c: Event, rest: seq<Event>)
    requires Can(cfg, s, a) && Can(cfg, Do(cfg, s, a), b) && Can(cfg, Do(cfg, Do(cfg, s, a), b), c)
    ensures Run(cfg, s, [a, b, c] + rest) == Run(cfg, Do(cfg, Do(cfg, Do(cfg, s, a), b), c), rest)
  {
    var s1 := Do(cfg, s, a);
    var s2 := Do(cfg, s1, b);
    assert ([a, b, c] + rest)[1..] == [b, c] + rest;
    assert ([b, c] + rest)[1..] == [c] + rest;
    assert ([c] + rest)[1..] == rest;
    assert Run(cfg, s2, [c] + rest) == Run(cfg, Do(cfg, s2, c), rest);
    assert Run(cfg, s1, [b, c] + rest) == Run(cfg, s2, [c] + rest);
  }

  lemma Admitted(cfg: Config, s: State)
    requires s.listener.Missed? && !s.draining && s.listener.src !in s.t.pending
    requires NoOverflow(s.t.ledger, s.listener.src.ip) && |s.t.held| < U32_MAX
    requires Verdict(cfg.caps, s.t.ledger, s.listener.src.ip) == None
    ensures var s1 := Do(cfg, s, MarkPending);
            && Can(cfg, s1, AskSlot)
            && var s2 := Do(cfg, s1, AskSlot);
            && Can(cfg, s2, Spawn)
            && var s3 := Do(cfg, s2, Spawn);
            && AtPc(s3, s.next, Opening) && s3.setups[s.next].src == s.listener.src
            && s3.t.sessions == s.t.sessions && s3.t.replaced == s.t.replaced && s3.force == s.force
            && s3.t.errorClosed == s.t.errorClosed && s3.t.rejected == s.t.rejected && s.listener.src in s3.t.pending
            && s3.cleanup == s.cleanup && s3.listener == Select
  {}

  lemma SetUpInserts(cfg: Config, s: State, id: Id, src: Src)
    requires AtPc(s, id, Opening) && s.setups[id].src == src && MapFree(s) && !s.force && src in s.t.sessions
    ensures var s' := Run(cfg, s, [OpenSucceeds(id), CheckForce(id), InsertSession(id)]);
            s'.Some? && s'.value.t.replaced == s.t.replaced + 1
  {
    var s1 := Do(cfg, s, OpenSucceeds(id));
    var s2 := Do(cfg, s1, CheckForce(id));
    var s3 := Do(cfg, s2, InsertSession(id));
    assert Run(cfg, s3, []) == Some(s3);
    assert Run(cfg, s2, [InsertSession(id)]) == Run(cfg, s3, []);
    assert [CheckForce(id), InsertSession(id)][1..] == [InsertSession(id)];
    assert [OpenSucceeds(id), CheckForce(id), InsertSession(id)][1..] == [CheckForce(id), InsertSession(id)];
  }

  /** Lookup and mark as one step: each mark comes directly after a lookup; `looked` says
      whether one came just before `es`. */
  predicate Fused(es: seq<Event>, looked: bool) {
    es != [] ==> (es[0].MarkPending? ==> looked) && Fused(es[1..], es[0].LookUp?)
  }

  ghost predicate GapFree(s: State) {
    && s.t.replaced == 0
    && (forall id <- s.setups :: !s.setups[id].gap)
    && (s.listener.Marked? ==> !s.listener.gap)
    && (s.listener.Granted? ==> !s.listener.gap)
  }

  /** If lookup and mark were one step, no session would ever be replaced. */
  lemma FusedNeverReplaces(cfg: Config, start: u64, es: seq<Event>, s: State)
    requires Run(cfg, Init(start), es) == Some(s) && Fused(es, false)
    ensures s.t.replaced == 0
  {
    InitInv(cfg, start);
    FusedFrom(cfg, Init(start), es, false);
  }

  ghost predicate MissIsFresh(s: State) {
    s.listener.Missed? ==> s.listener.src !in s.t.sessions
  }

  lemma {:induction false} FusedFrom(cfg: Config, s: State, es: seq<Event>, looked: bool)
    requires Inv(cfg, s) && GapFree(s) && Run(cfg, s, es).Some? && Fused(es, looked)
    requires looked ==> MissIsFresh(s)
    ensures Run(cfg, s, es).value.t.replaced == 0
    decreases |es|
  {
    if es != [] {
      StepKeepsInv(cfg, s, es[0]);
      StepKeepsGapFree(cfg, s, es[0]);
      if es[0].LookUp? {
        LookUpIsFresh(s);
      }
      FusedFrom(cfg, Do(cfg, s, es[0]), es[1..], es[0].LookUp?);
    }
  }

  lemma LookUpIsFresh(s: State)
    requires s.listener.Got?
    ensures MissIsFresh(AfterLookUp(s))
  {}

  lemma StepKeepsGapFree(cfg: Config, s: State, e: Event)
    requires Inv(cfg, s) && GapFree(s) && Can(cfg, s, e)
    requires e.MarkPending? ==> MissIsFresh(s)
    ensures GapFree(Do(cfg, s, e))
  {
    if OfListener(e) {
      ListenerKeepsGapFree(cfg, s, e);
    } else if OfSetup(e) {
      ReplacesOnlyThroughGap(cfg, s, e);
      SetupKeepsGapFlags(cfg, s, e);
      SameFlags(s, Do(cfg, s, e));
    } else {
      OthersReplaceNothing(cfg, s, e);
      SameFlags(s, Do(cfg, s, e));
    }
  }

  lemma SameFlags(s: State, s': State)
    requires GapFree(s) && s'.t.replaced == s.t.replaced
    requires s'.listener == s.listener || !Marking(s'.listener)
    requires forall id <- s'.setups :: id in s.setups && s'.setups[id].gap == s.setups[id].gap
    ensures GapFree(s')
  {}

  lemma SetupKeepsGapFlags(cfg: Config, s: State, e: Event)
    requires Can(cfg, s, e) && OfSetup(e)
    ensures var s' := Do(cfg, s, e);
            && s'.listener == s.listener
            && forall id <- s'.setups :: id in s.setups && s'.setups[id].gap == s.setups[id].gap
  {
    var s' := Do(cfg, s, e);
    SetupShape(cfg, s, e);
    assert s'.setups.Keys <= s.setups.Keys;
  }

  /** A set-up task's step touches its own entry only. */
  lemma SetupShape(cfg: Config, s: State, e: Event)
    requires Can(cfg, s, e) && OfSetup(e)
    ensures var s' := Do(cfg, s, e);
            && s'.listener == s.listener
            && s'.setups == if e.SetupEnds? then s.setups - {e.id} else SetPc(s, e.id, s'.setups[e.id].pc)
  {
    if e.OpenFails? {
      assert Do(cfg, s, e) == AfterOpenFails(s, e.id);
    } else if e.OpenSucceeds? {
      assert Do(cfg, s, e) == AfterOpens(s, e.id);
    } else if e.CheckForce? {
      assert Do(cfg, s, e) == AfterCheck(s, e.id);
    } else if e.InsertSession? {
      assert Do(cfg, s, e) == AfterInsert(s, e.id);
    }
  }

  lemma ListenerKeepsGapFree(cfg: Config, s: State, e: Event)
    requires GapFree(s) && Can(cfg, s, e) && OfListener(e)
    requires e.MarkPending? ==> MissIsFresh(s)
    ensures GapFree(Do(cfg, s, e))
  {
    ListenerReplacesNothing(cfg, s, e);
    if e.MarkPending? {
      MarkKeepsGapFree(s);
    } else if e.AskSlot? {
      AskKeepsGapFree(s, Grant(cfg.caps, s.t, s.listener.src, s.next));
    } else if e.Spawn? {
      SpawnKeepsGapFree(s);
    } else {
      ListenerElsewhere(cfg, s, e);
      SameFlags(s, Do(cfg, s, e));
    }
  }

  lemma MarkKeepsGapFree(s: State)
    requires GapFree(s) && s.listener.Missed? && MissIsFresh(s)
    ensures GapFree(AfterMark(s))
  {}

  lemma AskKeepsGapFree(s: State, answer: (Table, bool))
    requires GapFree(s) && s.listener.Marked? && answer.0.replaced == s.t.replaced
    ensures GapFree(AfterAsk(s, answer))
  {}

  lemma SpawnKeepsGapFree(s: State)
    requires GapFree(s) && s.listener.Granted?
    ensures GapFree(AfterSpawn(s))
  {}

  lemma ListenerElsewhere(cfg: Config, s: State, e: Event)
    requires Can(cfg, s, e) && OfListener(e) && !e.MarkPending? && !e.AskSlot? && !e.Spawn?
    ensures Do(cfg, s, e).setups == s.setups && !Marking(Do(cfg, s, e).listener)
  {
    if !OfAdmission(e) && !e.ForceOne? && !e.ForceEnds? {
      IdleListenerIsQuiet(cfg, s, e);
    }
  }

  // ── Draining ──────────────────────────────────────────────────────────────

  /** While draining, whatever packets arrive, nobody new is marked, admitted or set up. */
  ghost predicate NobodyNew(s: State, s': State) {
    && s'.draining
    && s'.t.pending <= s.t.pending && s'.setups.Keys <= s.setups.Keys
    && s'.t.who.Keys <= s.t.who.Keys && s'.t.home == s.t.home
  }

  lemma DrainingStep(cfg: Config, s: State, e: Event)
    requires Inv(cfg, s) && s.draining && Can(cfg, s, e)
    ensures NobodyNew(s, Do(cfg, s, e))
  {
    if OfListener(e) {
      DrainingListener(cfg, s, e);
    } else if OfSetup(e) {
      DrainingSetup(cfg, s, e);
    } else if e.Sweep? {
      SweepLeft(cfg.idleSecs, s.t, e.src, s.cleanup.now);
      SweepKeepsPendingSet(cfg.idleSecs, s.t, e.src, s.cleanup.now);
    } else if e.Die? {
      KillIsQuiet(s.t, e.id, s.now);
    }
  }

  lemma DrainingListener(cfg: Config, s: State, e: Event)
    requires Linked(s.t) && DrainInv(s) && s.draining && Can(cfg, s, e) && OfListener(e)
    ensures NobodyNew(s, Do(cfg, s, e))
  {
    if e.LookUp? {
      LookupLeft(s.t, s.listener.src, s.now);
      RemoveShape(s.t, s.listener.src);
    } else if e.ForceOne? {
      KillIsQuiet(s.t, s.t.sessions[e.src], s.now);
    } else if !OfAdmission(e) && !e.ForceEnds? {
      IdleListenerIsQuiet(cfg, s, e);
    }
  }

  lemma DrainingSetup(cfg: Config, s: State, e: Event)
    requires Linked(s.t) && s.draining && Can(cfg, s, e) && OfSetup(e)
    ensures NobodyNew(s, Do(cfg, s, e))
  {
    SetupShape(cfg, s, e);
    assert Do(cfg, s, e).setups.Keys <= s.setups.Keys;
    if e.InsertSession? {
      InsertFacts(s.t, s.setups[e.id].src, e.id, s.now);
      assert Do(cfg, s, e) == AfterInsert(s, e.id);
    } else if e.CheckForce? {
      KillIsQuiet(s.t, e.id, s.now);
      assert Do(cfg, s, e) == AfterCheck(s, e.id);
    }
  }

  lemma {:induction false} DrainingAdmitsNobody(cfg: Config, s: State, es: seq<Event>)
    requires Inv(cfg, s) && s.draining && Run(cfg, s, es).Some?
    ensures NobodyNew(s, Run(cfg, s, es).value)
    decreases |es|
  {
    if es != [] {
      StepKeepsInv(cfg, s, es[0]);
      DrainingStep(cfg, s, es[0]);
      DrainingAdmitsNobody(cfg, Do(cfg, s, es[0]), es[1..]);
    }
  }

  // ── Refusals ──────────────────────────────────────────────────────────────

  /** The listener asks for a slot and meets a cap. */
  predicate Refuses(cfg: Config, s: State, e: Event) {
    && e.AskSlot? && s.listener.Marked?
    && (0 < cfg.caps.maxTotal <= |s.t.held| || 0 < cfg.caps.maxPerIp <= s.t.held[s.listener.src.ip])
  }

  ghost function Refusals(cfg: Config, s: State, es: seq<Event>): nat
    requires Run(cfg, s, es).Some?
    decreases |es|
  {
    if es == [] then 0 else (if Refuses(cfg, s, es[0]) then 1 else 0) + Refusals(cfg, Do(cfg, s, es[0]), es[1..])
  }

  lemma AskCounts(cfg: Config, s: State)
    requires SlotsInv(cfg.caps, s.t) && Can(cfg, s, AskSlot)
    ensures Do(cfg, s, AskSlot).t.rejected == s.t.rejected + if Refuses(cfg, s, AskSlot) then 1 else 0
    ensures Do(cfg, s, AskSlot).listener.Refused? <==> Refuses(cfg, s, AskSlot)
  {
    AcquireIsSound(cfg.caps, s.t.ledger, s.t.held, s.listener.src.ip);
    AskAnswer(cfg, s);
  }

  lemma AskAnswer(cfg: Config, s: State)
    requires Can(cfg, s, AskSlot)
    ensures var out := TryAcquire(cfg.caps, s.t.ledger, s.listener.src.ip).1;
            && Do(cfg, s, AskSlot).t.rejected == s.t.rejected + (if out.Rejected? then 1 else 0)
            && (Do(cfg, s, AskSlot).listener.Refused? <==> out.Rejected?)
  {
    assert Do(cfg, s, AskSlot) == AfterAsk(s, Grant(cfg.caps, s.t, s.listener.src, s.next));
  }

  lemma OnlyAskRefuses(cfg: Config, s: State, e: Event)
    requires Linked(s.t) && Can(cfg, s, e) && !e.AskSlot?
    ensures Do(cfg, s, e).t.rejected == s.t.rejected
  {
    if OfListener(e) {
      ListenerRefusesNothing(cfg, s, e);
    } else if OfSetup(e) {
      SetupRefusesNothing(cfg, s, e);
    } else if e.Sweep? {
      SweepRefusesNothing(cfg.idleSecs, s.t, e.src, s.cleanup.now);
    } else if e.Die? {
      KillIsQuiet(s.t, e.id, s.now);
    }
  }

  lemma ListenerRefusesNothing(cfg: Config, s: State, e: Event)
    requires Linked(s.t) && Can(cfg, s, e) && OfListener(e) && !e.AskSlot?
    ensures Do(cfg, s, e).t.rejected == s.t.rejected
  {
    if e.LookUp? {
      LookupAnswers(s.t, s.listener.src, s.now);
      assert Do(cfg, s, e) == AfterLookUp(s);
    } else if e.ForceOne? {
      KillIsQuiet(s.t, s.t.sessions[e.src], s.now);
    } else if !OfAdmission(e) && !e.ForceEnds? {
      IdleListenerIsQuiet(cfg, s, e);
    }
  }

  lemma SetupRefusesNothing(cfg: Config, s: State, e: Event)
    requires Linked(s.t) && Can(cfg, s, e) && OfSetup(e)
    ensures Do(cfg, s, e).t.rejected == s.t.rejected
  {
    if e.InsertSession? {
      RemoveShape(s.t, s.setups[e.id].src);
      assert Do(cfg, s, e) == AfterInsert(s, e.id);
    } else if e.CheckForce? {
      KillIsQuiet(s.t, e.id, s.now);
      assert Do(cfg, s, e) == AfterCheck(s, e.id);
    } else if e.OpenFails? {
      assert Do(cfg, s, e) == AfterOpenFails(s, e.id);
    }
  }

  lemma SweepRefusesNothing(idleSecs: u64, t: Table, src: Src, now: u64)
    requires Linked(t)
    ensures SweepOne(idleSecs, t, src, now).rejected == t.rejected
  {
    RemoveShape(t, src);
    if src in t.sessions {
      KillIsQuiet(t, t.sessions[src], now);
      RemoveShape(Kill(t, t.sessions[src], now), src);
    }
  }

  /** In any run, `rejected` counts exactly the times the listener met a cap. */
  lemma {:induction false} RejectedMetACap(cfg: Config, s: State, es: seq<Event>)
    requires Inv(cfg, s) && Run(cfg, s, es).Some?
    ensures Run(cfg, s, es).value.t.rejected == s.t.rejected + Refusals(cfg, s, es)
    decreases |es|
  {
    if es != [] {
      if es[0].AskSlot? {
        AskCounts(cfg, s);
      } else {
        OnlyAskRefuses(cfg, s, es[0]);
      }
      StepKeepsInv(cfg, s, es[0]);
      RejectedMetACap(cfg, Do(cfg, s, es[0]), es[1..]);
    }
  }
}
