/** Where a client's datagrams go: the listener that receives them, the set-up tasks that carry
    opening packets, and the queue of every session with its relay task, on top of the tasks of
    `UdpProxy` (`src/proxy/udp.rs`). A datagram is named by its place among all received. */
module UdpFlow {
  import opened Machine
  import opened UdpTable
  import opened UdpProxy
  import opened UdpInvariants
  import opened UdpTheorems
  import opened UdpTiming
  import opened UdpEviction
  import opened UdpForce
  import D = Datagrams

  type Packet = D.Packet

  /** One session's side: the datagrams offered to its queue, and the queue with its task. */
  datatype Line = Line(offers: seq<nat>, chan: D.State)

  const NEW_LINE := Line([], D.FRESH)

  datatype Flow = Flow(
    s: State,
    received: seq<(Src, Packet)>,      // every datagram the listener received, in order
    hand: nat,                         // the one it is dealing with
    carried: map<Id, nat>,             // the opening packet moved into each set-up task
    lines: map<Id, Line>)

  function Start(now: u64): Flow {
    Flow(Init(now), [], 0, map[], map[])
  }

  datatype Move =
    | Arrive(src: Src, d: Packet)
    | Step(e: Event)
    | FirstOffer(id: Id)               // the set-up task's try_send, before its insert
    | Up(id: Id, a: D.Event)           // the relay task of the session

  function LineOf(f: Flow, id: Id): Line {
    if id in f.lines then f.lines[id] else NEW_LINE
  }

  function Payload(f: Flow, k: nat): Packet {
    if k < |f.received| then f.received[k].1 else []
  }

  /** The session was dropped: it is in no one's hands and in no map. */
  ghost predicate Gone(s: State, id: Id) {
    Settled(s, id) && forall src <- s.t.sessions :: s.t.sessions[src] != id
  }

  ghost predicate CanUp(s: State, id: Id, c: D.State, a: D.Event) {
    match a
    case Receive => D.Can(c, a)
    case SendOk(_) => D.Can(c, a)
    case SendErr => D.Can(c, a)
    case Stop => !c.ended && c.out.None? && (Object(s.t, id).dead || s.force)
    case Drained => !c.ended && c.out.None? && c.queue == [] && Gone(s, id)
    case _ => false
  }

  ghost predicate CanMove(cfg: Config, f: Flow, m: Move) {
    match m
    case Arrive(src, _) => Can(cfg, f.s, Packet(src))
    case Step(e) => !e.Packet? && Can(cfg, f.s, e) && (e.InsertSession? ==> LineOf(f, e.id).offers != [])
    case FirstOffer(id) => AtPc(f.s, id, Inserting) && LineOf(f, id).offers == []
    case Up(id, a) => id in f.lines && id in f.s.t.objects && CanUp(f.s, id, LineOf(f, id).chan, a)
  }

  /** `try_send`; the only sender of a dropped session is gone. */
  function Offered(l: Line, k: nat, d: Packet): Line {
    Line(l.offers + [k], if l.chan.hungUp then l.chan else D.Do(l.chan, D.Offer(d)))
  }

  function Offer(f: Flow, id: Id, k: nat): Flow {
    f.(lines := f.lines[id := Offered(LineOf(f, id), k, Payload(f, k))])
  }

  /** Does the listener find a live session for the datagram in its hand? */
  predicate Forwards(s: State) {
    s.listener.Got? && s.listener.src in s.t.sessions && !Object(s.t, s.t.sessions[s.listener.src]).dead
  }

  ghost function AfterStep(cfg: Config, f: Flow, e: Event): Flow
    requires Can(cfg, f.s, e)
  {
    var f' := f.(s := Do(cfg, f.s, e));
    if e.LookUp? && Forwards(f.s) then Offer(f', f.s.t.sessions[f.s.listener.src], f.hand)
    else if e.Spawn? then f'.(carried := f.carried[f.s.listener.id := f.hand])
    else if e.OpenSucceeds? then f'.(lines := f.lines[e.id := NEW_LINE])
    else f'
  }

  function AfterUp(c: D.State, a: D.Event): D.State
    requires D.Can(c, a) || (!c.ended && c.out.None? && (a.Stop? || (a.Drained? && c.queue == [])))
  {
    match a
    case Stop => D.Do(D.Do(c, D.Cancel), D.Stop)
    case Drained => D.Do(D.Do(c, D.HangUp), D.Drained)
    case _ => D.Do(c, a)
  }

  /** What the relay task's action does to the shared state: a stamp when it takes a datagram,
      the token when it ends. */
  ghost function SharedUp(cfg: Config, s: State, id: Id, a: D.Event): State
    requires id in s.t.objects
  {
    match a
    case Receive => Do(cfg, s, Stamp(id))
    case SendOk(_) => s
    case _ => Do(cfg, s, Die(id))
  }

  ghost function DoMove(cfg: Config, f: Flow, m: Move): Flow
    requires CanMove(cfg, f, m)
  {
    match m
    case Arrive(src, d) =>
      f.(s := Do(cfg, f.s, Packet(src)), received := f.received + [(src, d)], hand := |f.received|)
    case Step(e) => AfterStep(cfg, f, e)
    case FirstOffer(id) => Offer(f, id, if id in f.carried then f.carried[id] else 0)
    case Up(id, a) =>
      f.(s := SharedUp(cfg, f.s, id, a),
         lines := f.lines[id := LineOf(f, id).(chan := AfterUp(LineOf(f, id).chan, a))])
  }

  ghost function Flows(cfg: Config, f: Flow, ms: seq<Move>): Option<Flow>
    decreases |ms|
  {
    if ms == [] then Some(f)
    else if CanMove(cfg, f, ms[0]) then Flows(cfg, DoMove(cfg, f, ms[0]), ms[1..])
    else None
  }

  // ── Invariant ─────────────────────────────────────────────────────────────

  /** The listener has a datagram in its hand. */
  predicate Busy(l: Listener) {
    l.Got? || l.Missed? || l.Marked? || l.Refused? || l.Granted?
  }

  predicate Increasing(ks: seq<nat>) {
    forall i, j :: 0 <= i < j < |ks| ==> ks[i] < ks[j]
  }

  /** `k` names a datagram of `src` that the listener is done with. */
  predicate Settles(f: Flow, src: Src, k: nat) {
    k < |f.received| && f.received[k].0 == src && (Busy(f.s.listener) ==> k < f.hand)
  }

  /** The queue's log is the payloads of the datagrams offered. */
  predicate Logs(f: Flow, l: Line) {
    && |l.chan.offered| == |l.offers|
    && forall i :: 0 <= i < |l.offers| ==> l.chan.offered[i].0 == Payload(f, l.offers[i])
  }

  ghost predicate LineInv(f: Flow, id: Id)
    requires id in f.lines
  {
    var l := f.lines[id];
    && id in f.s.t.home
    && Increasing(l.offers)
    && (forall i :: 0 <= i < |l.offers| ==> Settles(f, f.s.t.home[id], l.offers[i]))
    && (l.offers != [] ==> id in f.carried && l.offers[0] == f.carried[id])
    && Logs(f, l) && D.Inv(l.chan)
    && (l.chan.hungUp ==> Gone(f.s, id))
  }

  ghost predicate LinesInv(f: Flow) {
    forall id <- f.lines :: LineInv(f, id)
  }

  ghost predicate HandInv(f: Flow) {
    Busy(f.s.listener) ==> f.hand + 1 == |f.received| && f.received[f.hand].0 == f.s.listener.src
  }

  ghost predicate CarriedInv(f: Flow) {
    forall id <- f.carried :: id in f.s.t.home && Settles(f, f.s.t.home[id], f.carried[id])
  }

  predicate SetupPlace(f: Flow, id: Id)
    requires id in f.s.setups
  {
    && id in f.carried
    && match f.s.setups[id].pc
       case Opening => id !in f.lines
       case Open => id in f.lines && f.lines[id].offers == []
       case Inserting => id in f.lines
       case Clearing => true
  }

  predicate SetupsPlaced(f: Flow) {
    forall id <- f.s.setups :: SetupPlace(f, id)
  }

  /** Every session in the map has been offered its opening packet. */
  predicate SessionsPlaced(f: Flow) {
    forall src <- f.s.t.sessions :: LineOf(f, f.s.t.sessions[src]).offers != []
  }

  predicate GrantPlaced(f: Flow) {
    f.s.listener.Granted? ==> f.s.listener.id !in f.lines
  }

  ghost predicate PlaceInv(f: Flow) {
    SetupsPlaced(f) && SessionsPlaced(f) && GrantPlaced(f)
  }

  ghost predicate FlowInv(cfg: Config, f: Flow) {
    Inv(cfg, f.s) && LinesInv(f) && HandInv(f) && CarriedInv(f) && PlaceInv(f)
  }

  lemma StartInv(cfg: Config, now: u64)
    ensures FlowInv(cfg, Start(now))
  {
    InitInv(cfg, now);
  }

  // ── Frames ────────────────────────────────────────────────────────────────

  /** What a step of the proxy's tasks means to the datagrams. */
  ghost predicate Onwards(s: State, s': State) {
    && (forall id <- s.t.home :: id in s'.t.home && s'.t.home[id] == s.t.home[id])
    && (Busy(s'.listener) ==> Busy(s.listener) && s'.listener.src == s.listener.src)
  }

  lemma HomeGrows(cfg: Config, s: State, e: Event)
    requires Linked(s.t) && OwnersInv(s) && Can(cfg, s, e)
    ensures forall id <- s.t.home :: id in Do(cfg, s, e).t.home && Do(cfg, s, e).t.home[id] == s.t.home[id]
  {
    if e.AskSlot? {
      GrantAnswers(cfg, s);
      assert s.next !in s.t.home;
    } else if e.Spawn? {
    } else if OfListener(e) {
      ListenerLeavesHomes(cfg, s, e);
    } else if OfSetup(e) {
      SetupLeavesHomes(cfg, s, e);
    } else {
      SettledByRest(cfg, s, e);
    }
  }

  lemma SetupLeavesHomes(cfg: Config, s: State, e: Event)
    requires Linked(s.t) && Can(cfg, s, e) && OfSetup(e)
    ensures Do(cfg, s, e).t.home == s.t.home
  {
    if e.InsertSession? {
      InsertLeavesHomes(s.t, s.setups[e.id].src, e.id, s.now);
      assert Do(cfg, s, e) == AfterInsert(s, e.id);
    } else if e.CheckForce? {
      KillIsQuiet(s.t, e.id, s.now);
      assert Do(cfg, s, e) == AfterCheck(s, e.id);
    } else if e.OpenFails? {
      assert Do(cfg, s, e) == AfterOpenFails(s, e.id);
    } else if e.OpenSucceeds? {
      assert Do(cfg, s, e) == AfterOpens(s, e.id);
    }
  }

  lemma InsertLeavesHomes(t: Table, src: Src, id: Id, now: u64)
    requires Linked(t)
    ensures Insert(t, src, id, now).home == t.home
  {
    InsertFacts(t, src, id, now);
  }

  lemma HandStays(cfg: Config, s: State, e: Event)
    requires Linked(s.t) && Can(cfg, s, e) && !e.Packet?
    ensures var l := Do(cfg, s, e).listener; Busy(l) ==> Busy(s.listener) && l.src == s.listener.src
  {
    if e.LookUp? {
      assert Do(cfg, s, e) == AfterLookUp(s);
    } else if e.AskSlot? {
      assert Do(cfg, s, e) == AfterAsk(s, Grant(cfg.caps, s.t, s.listener.src, s.next));
    } else if OfListener(e) {
      HandIsEmptied(cfg, s, e);
    } else {
      OthersLeaveListener(cfg, s, e);
    }
  }

  lemma HandIsEmptied(cfg: Config, s: State, e: Event)
    requires Can(cfg, s, e) && OfListener(e) && !e.Packet? && !e.LookUp? && !e.AskSlot?
    ensures var l := Do(cfg, s, e).listener; Busy(l) ==> Busy(s.listener) && l.src == s.listener.src
  {
    if e.ForceOne? {
      assert Do(cfg, s, e) == AfterForceOne(s, e.src);
    }
  }

  lemma StepIsOnwards(cfg: Config, s: State, e: Event)
    requires Linked(s.t) && OwnersInv(s) && Can(cfg, s, e) && !e.Packet?
    ensures Onwards(s, Do(cfg, s, e))
  {
    HomeGrows(cfg, s, e);
    HandStays(cfg, s, e);
  }

  lemma GoneStays(cfg: Config, s: State, e: Event, id: Id)
    requires Linked(s.t) && OwnersInv(s) && Can(cfg, s, e) && Gone(s, id)
    ensures Gone(Do(cfg, s, e), id)
  {
    var s' := Do(cfg, s, e);
    SettledStays(cfg, s, e, id);
    forall src <- s'.t.sessions ensures s'.t.sessions[src] != id {
      if At(s'.t, src, id) {
        StaysOnlyByAging(cfg, s, e, src, id);
      }
    }
  }

  lemma LinesStay(cfg: Config, f: Flow, e: Event)
    requires Inv(cfg, f.s) && LinesInv(f) && Can(cfg, f.s, e) && !e.Packet?
    ensures LinesInv(f.(s := Do(cfg, f.s, e)))
  {
    var f' := f.(s := Do(cfg, f.s, e));
    StepIsOnwards(cfg, f.s, e);
    forall id <- f'.lines ensures LineInv(f', id) {
      assert LineInv(f, id);
      if f.lines[id].chan.hungUp {
        GoneStays(cfg, f.s, e, id);
      }
      LineStays(f, id, f'.s);
    }
  }

  lemma LineStays(f: Flow, id: Id, s': State)
    requires id in f.lines && LineInv(f, id) && Onwards(f.s, s')
    requires f.lines[id].chan.hungUp ==> Gone(s', id)
    ensures LineInv(f.(s := s'), id)
  {}

  lemma HandAndCarriedStay(f: Flow, s': State)
    requires HandInv(f) && CarriedInv(f) && Onwards(f.s, s')
    ensures HandInv(f.(s := s')) && CarriedInv(f.(s := s'))
  {}

  /** A line depends on its own entry only. */
  lemma LineFrame(f: Flow, f': Flow, id: Id)
    requires id in f.lines && LineInv(f, id) && id in f'.lines && f'.lines[id] == f.lines[id]
    requires f'.s == f.s && f'.received == f.received && f'.hand == f.hand && f'.carried == f.carried
    ensures LineInv(f', id)
  {}

  lemma OtherLinesStay(f: Flow, id: Id, l: Line)
    requires forall other <- f.lines :: other != id ==> LineInv(f, other)
    requires LineInv(f.(lines := f.lines[id := l]), id)
    ensures LinesInv(f.(lines := f.lines[id := l]))
  {
    var f' := f.(lines := f.lines[id := l]);
    forall other <- f'.lines ensures LineInv(f', other) {
      if other != id {
        LineFrame(f, f', other);
      }
    }
  }

  // ── Offers ────────────────────────────────────────────────────────────────

  /** `k` may be offered to `id` next. */
  ghost predicate NextOffer(f: Flow, id: Id, k: nat) {
    && id in f.lines && id in f.s.t.home && !f.lines[id].chan.hungUp
    && Settles(f, f.s.t.home[id], k)
    && (forall i :: 0 <= i < |f.lines[id].offers| ==> f.lines[id].offers[i] < k)
    && (f.lines[id].offers == [] ==> id in f.carried && f.carried[id] == k)
  }

  lemma OfferKeepsLine(f: Flow, id: Id, k: nat)
    requires NextOffer(f, id, k) && LineInv(f, id)
    ensures LineInv(Offer(f, id, k), id)
  {
    var l, d := f.lines[id], Payload(f, k);
    var l' := Offered(l, k, d);
    D.StepKeepsInv(l.chan, D.Offer(d));
    assert l'.chan.offered == l.chan.offered + [(d, D.Takes(l.chan))];
    assert l'.offers == l.offers + [k];
  }

  lemma OfferKeepsLines(f: Flow, id: Id, k: nat)
    requires LinesInv(f) && NextOffer(f, id, k)
    ensures LinesInv(Offer(f, id, k))
  {
    assert LineInv(f, id);
    OfferKeepsLine(f, id, k);
    OtherLinesStay(f, id, Offered(LineOf(f, id), k, Payload(f, k)));
  }

  /** The listener's datagram may be offered to the session it finds. */
  lemma ForwardIsNext(f: Flow)
    requires Linked(f.s.t) && LinesInv(f) && HandInv(f) && SessionsPlaced(f) && Forwards(f.s)
    ensures NextOffer(f.(s := AfterLookUp(f.s)), f.s.t.sessions[f.s.listener.src], f.hand)
  {
    var src := f.s.listener.src;
    var id := f.s.t.sessions[src];
    assert AfterLookUp(f.s).listener == Select && AfterLookUp(f.s).t.home == f.s.t.home;
    assert LineOf(f, id).offers != [];
    HandIsNext(f, id, AfterLookUp(f.s));
  }

  lemma HandIsNext(f: Flow, id: Id, s': State)
    requires id in f.lines && LineInv(f, id) && HandInv(f) && f.s.listener.Got? && f.lines[id].offers != []
    requires f.s.t.home[id] == f.s.listener.src && s'.t.home == f.s.t.home && s'.listener == Select
    requires !Gone(f.s, id)
    ensures NextOffer(f.(s := s'), id, f.hand)
  {}

  lemma FirstIsNext(cfg: Config, f: Flow, id: Id)
    requires FlowInv(cfg, f) && CanMove(cfg, f, FirstOffer(id))
    ensures id in f.carried && NextOffer(f, id, f.carried[id])
  {
    assert SetupPlace(f, id) && SetupOwns(f.s, id);
    assert LineInv(f, id);
    if f.lines[id].chan.hungUp {
      assert HeldBySetup(f.s, id);
    }
  }

  // ── Places ────────────────────────────────────────────────────────────────

  lemma OfferKeepsPlaces(f: Flow, id: Id, k: nat)
    requires PlaceInv(f) && id in f.lines
    requires id in f.s.setups ==> f.s.setups[id].pc == Inserting || f.s.setups[id].pc == Clearing
    ensures PlaceInv(Offer(f, id, k))
  {
    var f' := Offer(f, id, k);
    forall i <- f'.s.setups ensures SetupPlace(f', i) {
      assert SetupPlace(f, i);
    }
  }

  lemma SessionsStayPlaced(cfg: Config, f: Flow, e: Event)
    requires Inv(cfg, f.s) && SessionsPlaced(f) && CanMove(cfg, f, Step(e))
    ensures SessionsPlaced(f.(s := Do(cfg, f.s, e)))
  {
    if e.InsertSession? {
      InsertFacts(f.s.t, f.s.setups[e.id].src, e.id, f.s.now);
      InsertStaysPlaced(f, f.s.setups[e.id].src, e.id, AfterInsert(f.s, e.id));
      assert Do(cfg, f.s, e) == AfterInsert(f.s, e.id);
    } else {
      AnyAges(cfg, f.s, e);
      AgingStaysPlaced(f, Do(cfg, f.s, e));
    }
  }

  lemma InsertStaysPlaced(f: Flow, src: Src, id: Id, s': State)
    requires SessionsPlaced(f) && LineOf(f, id).offers != [] && s'.t.sessions == f.s.t.sessions[src := id]
    ensures SessionsPlaced(f.(s := s'))
  {}

  lemma AgingStaysPlaced(f: Flow, s': State)
    requires SessionsPlaced(f) && Ages(f.s.t, s'.t, f.s.now)
    ensures SessionsPlaced(f.(s := s'))
  {}

  lemma NextHasNoLine(f: Flow)
    requires OwnersInv(f.s) && LinesInv(f)
    ensures f.s.next !in f.lines
  {
    forall id <- f.lines ensures id < f.s.next {
      assert LineInv(f, id);
    }
  }

  lemma OnlyAskGrants(cfg: Config, s: State, e: Event)
    requires Linked(s.t) && Can(cfg, s, e)
    ensures var l := Do(cfg, s, e).listener; l.Granted? ==> l == s.listener || (e.AskSlot? && l.id == s.next)
  {
    if e.AskSlot? {
      assert Do(cfg, s, e) == AfterAsk(s, Grant(cfg.caps, s.t, s.listener.src, s.next));
    } else if e.Spawn? {
    } else if OfListener(e) {
      ListenerLeavesHomes(cfg, s, e);
    } else {
      OthersLeaveListener(cfg, s, e);
    }
  }

  lemma GrantStaysPlaced(cfg: Config, f: Flow, e: Event)
    requires Inv(cfg, f.s) && GrantPlaced(f) && LinesInv(f) && CanMove(cfg, f, Step(e))
    ensures GrantPlaced(f.(s := Do(cfg, f.s, e)))
  {
    OnlyAskGrants(cfg, f.s, e);
    NextHasNoLine(f);
  }

  lemma SetupsStayPlaced(cfg: Config, f: Flow, e: Event)
    requires Inv(cfg, f.s) && SetupsPlaced(f) && CanMove(cfg, f, Step(e)) && !e.Spawn? && !e.OpenSucceeds?
    ensures SetupsPlaced(f.(s := Do(cfg, f.s, e)))
  {
    if OfSetup(e) {
      SetupShape(cfg, f.s, e);
      if !e.SetupEnds? {
        PcMovesOn(cfg, f.s, e);
      }
      if e.SetupEnds? {
        SetupLeaves(f, e.id, Do(cfg, f.s, e));
      } else {
        OneSetupStaysPlaced(f, e.id, Do(cfg, f.s, e).setups[e.id].pc, Do(cfg, f.s, e));
      }
    } else {
      SetupsAreLeft(cfg, f.s, e);
      SameSetupsPlaced(f, Do(cfg, f.s, e));
    }
  }

  lemma SameSetupsPlaced(f: Flow, s': State)
    requires SetupsPlaced(f) && s'.setups == f.s.setups
    ensures SetupsPlaced(f.(s := s'))
  {
    forall i <- s'.setups ensures SetupPlace(f.(s := s'), i) {
      assert SetupPlace(f, i);
    }
  }

  lemma SetupLeaves(f: Flow, id: Id, s': State)
    requires SetupsPlaced(f) && s'.setups == f.s.setups - {id}
    ensures SetupsPlaced(f.(s := s'))
  {
    forall i <- s'.setups ensures SetupPlace(f.(s := s'), i) {
      assert SetupPlace(f, i);
    }
  }

  lemma OneSetupStaysPlaced(f: Flow, id: Id, pc: SetupPc, s': State)
    requires SetupsPlaced(f) && id in f.s.setups && s'.setups == SetPc(f.s, id, pc)
    requires pc == Clearing || (f.s.setups[id].pc == Open && pc == Inserting)
    ensures SetupsPlaced(f.(s := s'))
  {
    forall i <- s'.setups ensures SetupPlace(f.(s := s'), i) {
      assert SetupPlace(f, i);
    }
  }

  lemma PcMovesOn(cfg: Config, s: State, e: Event)
    requires Can(cfg, s, e) && OfSetup(e) && !e.OpenSucceeds? && !e.SetupEnds?
    ensures var pc := Do(cfg, s, e).setups[e.id].pc; pc == Clearing || (s.setups[e.id].pc == Open && pc == Inserting)
  {
    if e.CheckForce? {
      assert Do(cfg, s, e) == AfterCheck(s, e.id);
    } else if e.InsertSession? {
      assert Do(cfg, s, e) == AfterInsert(s, e.id);
    } else {
      assert Do(cfg, s, e) == AfterOpenFails(s, e.id);
    }
  }

  lemma SetupsAreLeft(cfg: Config, s: State, e: Event)
    requires Linked(s.t) && Can(cfg, s, e) && !OfSetup(e) && !e.Spawn?
    ensures Do(cfg, s, e).setups == s.setups
  {
    if e.AskSlot? {
      assert Do(cfg, s, e) == AfterAsk(s, Grant(cfg.caps, s.t, s.listener.src, s.next));
    } else if OfListener(e) {
      ListenerLeavesHomes(cfg, s, e);
    } else {
      SettledByRest(cfg, s, e);
    }
  }

  // ── Moves ─────────────────────────────────────────────────────────────────

  lemma ArriveKeeps(cfg: Config, f: Flow, src: Src, d: Packet)
    requires FlowInv(cfg, f) && CanMove(cfg, f, Arrive(src, d))
    ensures FlowInv(cfg, DoMove(cfg, f, Arrive(src, d)))
  {
    var f' := DoMove(cfg, f, Arrive(src, d));
    StepKeepsInv(cfg, f.s, Packet(src));
    assert f'.s == f.s.(listener := Got(src));
    forall id <- f'.lines ensures LineInv(f', id) {
      assert LineInv(f, id);
      LineGetsMore(f, id, f');
    }
    ArriveKeepsPlaces(f, f');
  }

  lemma ArriveKeepsPlaces(f: Flow, f': Flow)
    requires PlaceInv(f) && f'.lines == f.lines && f'.carried == f.carried
    requires f'.s == f.s.(listener := f'.s.listener) && !f'.s.listener.Granted?
    ensures PlaceInv(f')
  {
    forall id <- f'.s.setups ensures SetupPlace(f', id) {
      assert SetupPlace(f, id);
    }
  }

  lemma LineGetsMore(f: Flow, id: Id, f': Flow)
    requires id in f.lines && LineInv(f, id) && f'.lines == f.lines && f'.carried == f.carried
    requires f.received <= f'.received && f'.hand == |f.received|
    requires f'.s == f.s.(listener := f'.s.listener) && !f'.s.listener.Granted? && !f.s.listener.Granted?
    ensures LineInv(f', id)
  {}

  lemma LookUpKeeps(cfg: Config, f: Flow)
    requires FlowInv(cfg, f) && CanMove(cfg, f, Step(LookUp)) && Forwards(f.s)
    ensures FlowInv(cfg, AfterStep(cfg, f, LookUp))
  {
    var id, f1 := f.s.t.sessions[f.s.listener.src], f.(s := AfterLookUp(f.s));
    SharedStepKeeps(cfg, f, LookUp);
    ForwardIsNext(f);
    OfferKeepsLines(f1, id, f.hand);
    MapIsSettled(f.s, f.s.listener.src);
    assert f1.s.setups == f.s.setups;
    OfferKeepsPlaces(f1, id, f.hand);
  }

  /** Everything but what the step itself adds to lines and carried packets. */
  lemma SharedStepKeeps(cfg: Config, f: Flow, e: Event)
    requires FlowInv(cfg, f) && CanMove(cfg, f, Step(e))
    ensures var f' := f.(s := Do(cfg, f.s, e));
            && Inv(cfg, f'.s) && LinesInv(f') && HandInv(f') && CarriedInv(f')
            && SessionsPlaced(f') && GrantPlaced(f')
            && (!e.Spawn? && !e.OpenSucceeds? ==> SetupsPlaced(f'))
  {
    StepKeepsInv(cfg, f.s, e);
    LinesStay(cfg, f, e);
    StepIsOnwards(cfg, f.s, e);
    HandAndCarriedStay(f, Do(cfg, f.s, e));
    SessionsStayPlaced(cfg, f, e);
    GrantStaysPlaced(cfg, f, e);
    if !e.Spawn? && !e.OpenSucceeds? {
      SetupsStayPlaced(cfg, f, e);
    }
  }

  lemma SpawnMoves(cfg: Config, f: Flow)
    requires FlowInv(cfg, f) && CanMove(cfg, f, Step(Spawn))
    ensures FlowInv(cfg, AfterStep(cfg, f, Spawn))
  {
    SpawnStep(cfg, f);
    SharedStepKeeps(cfg, f, Spawn);
    Spawned(cfg, f, f.(s := AfterSpawn(f.s)));
  }

  lemma SpawnStep(cfg: Config, f: Flow)
    requires f.s.listener.Granted?
    ensures Can(cfg, f.s, Spawn) && Do(cfg, f.s, Spawn) == AfterSpawn(f.s)
    ensures AfterStep(cfg, f, Spawn) ==
            f.(s := AfterSpawn(f.s), carried := f.carried[f.s.listener.id := f.hand])
  {}

  lemma Spawned(cfg: Config, f: Flow, f1: Flow)
    requires PlaceInv(f) && HandInv(f) && OwnersInv(f.s) && f.s.listener.Granted?
    requires f1 == f.(s := AfterSpawn(f.s))
    requires Inv(cfg, f1.s) && LinesInv(f1) && CarriedInv(f1)
    ensures FlowInv(cfg, f1.(carried := f.carried[f.s.listener.id := f.hand]))
  {
    SpawnKeepsLines(f1, f.s.listener.id, f.hand);
    SpawnCarries(f, f1);
    SpawnKeepsPlaces(f);
  }

  lemma SpawnKeepsLines(f: Flow, id: Id, k: nat)
    requires LinesInv(f) && id !in f.lines
    ensures LinesInv(f.(carried := f.carried[id := k]))
  {
    var f' := f.(carried := f.carried[id := k]);
    forall i <- f'.lines ensures LineInv(f', i) {
      assert LineInv(f, i);
      CarriedGrows(f, i, id, k);
    }
  }

  lemma SpawnCarries(f: Flow, f1: Flow)
    requires f.s.listener.Granted? && f1 == f.(s := AfterSpawn(f.s)) && HandInv(f) && CarriedInv(f1)
    requires f.s.listener.id in f.s.t.home && f.s.t.home[f.s.listener.id] == f.s.listener.src
    ensures CarriedInv(f1.(carried := f.carried[f.s.listener.id := f.hand]))
    ensures HandInv(f1.(carried := f.carried[f.s.listener.id := f.hand]))
  {}

  lemma SpawnKeepsPlaces(f: Flow)
    requires PlaceInv(f) && f.s.listener.Granted?
    ensures PlaceInv(f.(s := AfterSpawn(f.s), carried := f.carried[f.s.listener.id := f.hand]))
  {
    var f' := f.(s := AfterSpawn(f.s), carried := f.carried[f.s.listener.id := f.hand]);
    forall id <- f'.s.setups ensures SetupPlace(f', id) {
      assert id in f.s.setups ==> SetupPlace(f, id);
    }
  }

  lemma CarriedGrows(f: Flow, id: Id, other: Id, k: nat)
    requires id in f.lines && LineInv(f, id) && other !in f.lines
    ensures LineInv(f.(carried := f.carried[other := k]), id)
  {}

  lemma OpenMoves(cfg: Config, f: Flow, id: Id)
    requires FlowInv(cfg, f) && CanMove(cfg, f, Step(OpenSucceeds(id)))
    ensures FlowInv(cfg, AfterStep(cfg, f, OpenSucceeds(id)))
  {
    OpenStep(cfg, f, id);
    SharedStepKeeps(cfg, f, OpenSucceeds(id));
    Opened(cfg, f, id, f.(s := AfterOpens(f.s, id)));
  }

  lemma OpenStep(cfg: Config, f: Flow, id: Id)
    requires AtPc(f.s, id, Opening)
    ensures Can(cfg, f.s, OpenSucceeds(id)) && Do(cfg, f.s, OpenSucceeds(id)) == AfterOpens(f.s, id)
    ensures AfterStep(cfg, f, OpenSucceeds(id)) == f.(s := AfterOpens(f.s, id), lines := f.lines[id := NEW_LINE])
  {}

  lemma Opened(cfg: Config, f: Flow, id: Id, f1: Flow)
    requires PlaceInv(f) && Linked(f.s.t) && OwnersInv(f.s) && AtPc(f.s, id, Opening)
    requires f1 == f.(s := AfterOpens(f.s, id))
    requires Inv(cfg, f1.s) && LinesInv(f1) && HandInv(f1) && CarriedInv(f1)
    ensures FlowInv(cfg, f1.(lines := f.lines[id := NEW_LINE]))
  {
    assert id in f1.s.t.home by {
      assert SetupOwns(f.s, id);
    }
    OpenKeepsLines(f1, id);
    OpenKeepsPlaces(f, id);
    OnlyLinesChange(cfg, f1, f1.(lines := f.lines[id := NEW_LINE]));
  }

  lemma OpenKeepsLines(f: Flow, id: Id)
    requires LinesInv(f) && id in f.s.t.home
    ensures LinesInv(f.(lines := f.lines[id := NEW_LINE]))
  {
    assert LineInv(f.(lines := f.lines[id := NEW_LINE]), id);
    OtherLinesStay(f, id, NEW_LINE);
  }

  lemma OpenKeepsPlaces(f: Flow, id: Id)
    requires PlaceInv(f) && Linked(f.s.t) && OwnersInv(f.s) && AtPc(f.s, id, Opening)
    ensures PlaceInv(f.(s := AfterOpens(f.s, id), lines := f.lines[id := NEW_LINE]))
  {
    var f' := f.(s := AfterOpens(f.s, id), lines := f.lines[id := NEW_LINE]);
    assert SetupOwns(f.s, id) && SetupPlace(f, id);
    forall i <- f'.s.setups ensures SetupPlace(f', i) {
      assert SetupPlace(f, i);
    }
  }

  lemma FirstOfferKeeps(cfg: Config, f: Flow, id: Id)
    requires FlowInv(cfg, f) && CanMove(cfg, f, FirstOffer(id))
    ensures FlowInv(cfg, DoMove(cfg, f, FirstOffer(id)))
  {
    FirstIsNext(cfg, f, id);
    OfferKeepsLines(f, id, f.carried[id]);
    OfferKeepsPlaces(f, id, f.carried[id]);
    OnlyLinesChange(cfg, f, Offer(f, id, f.carried[id]));
  }

  lemma UpKeepsLine(f: Flow, id: Id, a: D.Event, s: State)
    requires id in f.lines && LineInv(f, id)
    requires CanUp(s, id, f.lines[id].chan, a) && (a.Drained? ==> Gone(f.s, id))
    ensures var l := f.lines[id].(chan := AfterUp(f.lines[id].chan, a));
            LineInv(f.(lines := f.lines[id := l]), id)
  {
    var c := f.lines[id].chan;
    if a.Stop? {
      D.StepKeepsInv(c, D.Cancel);
      D.StepKeepsInv(D.Do(c, D.Cancel), D.Stop);
    } else if a.Drained? {
      D.StepKeepsInv(c, D.HangUp);
      D.StepKeepsInv(D.Do(c, D.HangUp), D.Drained);
    } else {
      D.StepKeepsInv(c, a);
    }
    UpLeavesLog(c, a);
  }

  lemma UpLeavesLog(c: D.State, a: D.Event)
    requires D.Can(c, a) || (!c.ended && c.out.None? && (a.Stop? || (a.Drained? && c.queue == [])))
    requires a.Receive? || a.SendOk? || a.SendErr? || a.Stop? || a.Drained?
    ensures AfterUp(c, a).offered == c.offered && (AfterUp(c, a).hungUp ==> c.hungUp || a.Drained?)
  {}

  /** The proxy's own steps as a relay task's action sees them. */
  function Shared(id: Id, a: D.Event): seq<Event> {
    match a
    case Receive => [Stamp(id)]
    case SendOk(_) => []
    case _ => [Die(id)]
  }

  lemma SharedUpKeeps(cfg: Config, f: Flow, id: Id, a: D.Event)
    requires FlowInv(cfg, f) && id in f.s.t.objects
    ensures FlowInv(cfg, f.(s := SharedUp(cfg, f.s, id, a)))
    ensures Gone(f.s, id) ==> Gone(SharedUp(cfg, f.s, id, a), id)
    ensures Run(cfg, f.s, Shared(id, a)) == Some(SharedUp(cfg, f.s, id, a))
  {
    if a.SendOk? {
      assert f.(s := f.s) == f;
    } else {
      var e := if a.Receive? then Stamp(id) else Die(id);
      RunOne(cfg, f.s, e);
      QuietStepMoves(cfg, f, e, id);
    }
  }

  lemma QuietStepMoves(cfg: Config, f: Flow, e: Event, id: Id)
    requires FlowInv(cfg, f) && CanMove(cfg, f, Step(e)) && (e.Stamp? || e.Die?)
    ensures FlowInv(cfg, f.(s := Do(cfg, f.s, e)))
    ensures Gone(f.s, id) ==> Gone(Do(cfg, f.s, e), id)
  {
    SharedStepKeeps(cfg, f, e);
    if Gone(f.s, id) {
      GoneStays(cfg, f.s, e, id);
    }
  }

  lemma UpKeeps(cfg: Config, f: Flow, id: Id, a: D.Event)
    requires FlowInv(cfg, f) && CanMove(cfg, f, Up(id, a))
    ensures FlowInv(cfg, DoMove(cfg, f, Up(id, a)))
  {
    var f1 := f.(s := SharedUp(cfg, f.s, id, a));
    SharedUpKeeps(cfg, f, id, a);
    UpKeepsLines(f1, id, a, f.s);
    ChanKeepsPlaces(f1, id, AfterUp(f.lines[id].chan, a));
    OnlyLinesChange(cfg, f1, DoMove(cfg, f, Up(id, a)));
  }

  lemma UpKeepsLines(f: Flow, id: Id, a: D.Event, s: State)
    requires LinesInv(f) && id in f.lines
    requires CanUp(s, id, f.lines[id].chan, a) && (a.Drained? ==> Gone(f.s, id))
    ensures LinesInv(f.(lines := f.lines[id := f.lines[id].(chan := AfterUp(f.lines[id].chan, a))]))
  {
    assert LineInv(f, id);
    UpKeepsLine(f, id, a, s);
    OtherLinesStay(f, id, f.lines[id].(chan := AfterUp(f.lines[id].chan, a)));
  }

  lemma OnlyLinesChange(cfg: Config, f: Flow, f': Flow)
    requires Inv(cfg, f.s) && HandInv(f) && CarriedInv(f)
    requires f' == f.(lines := f'.lines) && LinesInv(f') && PlaceInv(f')
    ensures FlowInv(cfg, f')
  {}

  lemma ChanKeepsPlaces(f: Flow, id: Id, c: D.State)
    requires PlaceInv(f) && id in f.lines
    ensures PlaceInv(f.(lines := f.lines[id := f.lines[id].(chan := c)]))
  {
    var f' := f.(lines := f.lines[id := f.lines[id].(chan := c)]);
    forall i <- f'.s.setups ensures SetupPlace(f', i) {
      assert SetupPlace(f, i);
    }
  }

  lemma MoveKeeps(cfg: Config, f: Flow, m: Move)
    requires FlowInv(cfg, f) && CanMove(cfg, f, m)
    ensures FlowInv(cfg, DoMove(cfg, f, m))
  {
    match m {
      case Arrive(src, d) => ArriveKeeps(cfg, f, src, d);
      case Step(e) => StepMoves(cfg, f, e);
      case FirstOffer(id) => FirstOfferKeeps(cfg, f, id);
      case Up(id, a) => UpKeeps(cfg, f, id, a);
    }
  }

  lemma StepMoves(cfg: Config, f: Flow, e: Event)
    requires FlowInv(cfg, f) && CanMove(cfg, f, Step(e))
    ensures FlowInv(cfg, AfterStep(cfg, f, e))
  {
    if e.LookUp? && Forwards(f.s) {
      LookUpKeeps(cfg, f);
    } else if e.Spawn? {
      SpawnMoves(cfg, f);
    } else if e.OpenSucceeds? {
      OpenMoves(cfg, f, e.id);
    } else {
      SharedStepKeeps(cfg, f, e);
    }
  }

  lemma {:induction false} FlowsKeep(cfg: Config, f: Flow, ms: seq<Move>)
    requires FlowInv(cfg, f) && Flows(cfg, f, ms).Some?
    ensures FlowInv(cfg, Flows(cfg, f, ms).value)
    decreases |ms|
  {
    if ms != [] {
      MoveKeeps(cfg, f, ms[0]);
      FlowsKeep(cfg, DoMove(cfg, f, ms[0]), ms[1..]);
    }
  }

  // ── Results ───────────────────────────────────────────────────────────────

  /** The part of a move that is a run of the proxy's tasks. */
  function Tasks(m: Move): seq<Event> {
    match m
    case Arrive(src, _) => [Packet(src)]
    case Step(e) => [e]
    case FirstOffer(_) => []
    case Up(id, a) => Shared(id, a)
  }

  lemma MoveIsARun(cfg: Config, f: Flow, m: Move)
    requires FlowInv(cfg, f) && CanMove(cfg, f, m)
    ensures Run(cfg, f.s, Tasks(m)) == Some(DoMove(cfg, f, m).s)
  {
    match m {
      case Arrive(src, _) => RunOne(cfg, f.s, Packet(src));
      case Step(e) => RunOne(cfg, f.s, e);
      case FirstOffer(_) =>
      case Up(id, a) => SharedUpKeeps(cfg, f, id, a);
    }
  }

  lemma RunOne(cfg: Config, s: State, e: Event)
    requires Can(cfg, s, e)
    ensures Run(cfg, s, [e]) == Some(Do(cfg, s, e))
  {
    RunCons(cfg, s, e, []);
    assert [e] + [] == [e];
  }

  /** With the datagrams left out, a run of the whole is a run of the proxy's tasks, so all that
      is proved of those holds here. */
  lemma {:induction false} FlowsAreRuns(cfg: Config, f: Flow, ms: seq<Move>) returns (es: seq<Event>)
    requires FlowInv(cfg, f) && Flows(cfg, f, ms).Some?
    ensures Run(cfg, f.s, es) == Some(Flows(cfg, f, ms).value.s)
    decreases |ms|
  {
    if ms == [] {
      es := [];
    } else {
      MoveKeeps(cfg, f, ms[0]);
      MoveIsARun(cfg, f, ms[0]);
      var rest := FlowsAreRuns(cfg, DoMove(cfg, f, ms[0]), ms[1..]);
      RunJoin(cfg, f.s, Tasks(ms[0]), DoMove(cfg, f, ms[0]).s, rest);
      es := Tasks(ms[0]) + rest;
    }
  }

  /** In every run, for every session that was ever opened, two of one source included: what is
      offered to its queue are datagrams received from its source, each once and in the order
      of their arrival, and the first of them is the one its set-up task was started with. */
  lemma OffersFollowArrivals(cfg: Config, now: u64, ms: seq<Move>, f: Flow, id: Id)
    requires Flows(cfg, Start(now), ms) == Some(f) && id in f.lines
    ensures var offers := f.lines[id].offers;
            && Increasing(offers)
            && (forall i :: 0 <= i < |offers| ==>
                  offers[i] < |f.received| && id in f.s.t.home && f.received[offers[i]].0 == f.s.t.home[id])
            && (offers != [] ==> id in f.carried && offers[0] == f.carried[id])
  {
    StartInv(cfg, now);
    FlowsKeep(cfg, Start(now), ms);
    assert LineInv(f, id);
  }

  /** The arrival of the `i`-th datagram the queue took. */
  function Arrival(l: Line, i: nat): nat
    requires |l.chan.offered| == |l.offers| && i < |D.Accepted(l.chan.offered)|
  {
    D.PlacesAreInOrder(l.chan.offered);
    l.offers[D.Places(l.chan.offered)[i]]
  }

  /** End to end, for every run and session: what was sent upstream without error are datagrams
      received from the session's own source, in the order of arrival, none twice; they are the
      first ones its queue took; and at most 256 wait. If the opening packet was taken, it is the
      first sent. */
  lemma SentFollowsArrivals(cfg: Config, now: u64, ms: seq<Move>, f: Flow, id: Id)
    requires Flows(cfg, Start(now), ms) == Some(f) && id in f.lines
    ensures var l := f.lines[id];
            && |l.chan.offered| == |l.offers| && |l.chan.sent| <= |D.Accepted(l.chan.offered)|
            && |l.chan.queue| <= D.CAPACITY
            && (forall i :: 0 <= i < |l.chan.sent| ==>
                  && Arrival(l, i) < |f.received| && id in f.s.t.home
                  && f.received[Arrival(l, i)] == (f.s.t.home[id], l.chan.sent[i]))
            && (forall i, j :: 0 <= i < j < |l.chan.sent| ==> Arrival(l, i) < Arrival(l, j))
            && (l.chan.sent != [] && l.chan.offered[0].1 ==> id in f.carried && Arrival(l, 0) == f.carried[id])
  {
    StartInv(cfg, now);
    FlowsKeep(cfg, Start(now), ms);
    assert LineInv(f, id);
    LineIsInOrder(f, id);
  }

  lemma LineIsInOrder(f: Flow, id: Id)
    requires id in f.lines && LineInv(f, id)
    ensures var l := f.lines[id];
            && |l.chan.offered| == |l.offers| && |l.chan.sent| <= |D.Accepted(l.chan.offered)|
            && |l.chan.queue| <= D.CAPACITY
            && (forall i :: 0 <= i < |l.chan.sent| ==>
                  && Arrival(l, i) < |f.received|
                  && f.received[Arrival(l, i)] == (f.s.t.home[id], l.chan.sent[i]))
            && (forall i, j :: 0 <= i < j < |l.chan.sent| ==> Arrival(l, i) < Arrival(l, j))
            && (l.chan.sent != [] && l.chan.offered[0].1 ==> id in f.carried && Arrival(l, 0) == f.carried[id])
  {
    var l := f.lines[id];
    D.PlacesAreInOrder(l.chan.offered);
    forall i | 0 <= i < |l.chan.sent|
      ensures Arrival(l, i) < |f.received| && f.received[Arrival(l, i)] == (f.s.t.home[id], l.chan.sent[i])
    {
      assert l.chan.sent[i] == D.Accepted(l.chan.offered)[i];
      assert l.chan.offered[D.Places(l.chan.offered)[i]].0 == Payload(f, Arrival(l, i));
    }
    if l.chan.sent != [] && l.chan.offered[0].1 {
      D.FirstPlace(l.chan.offered);
    }
  }

  /** Nothing that is forwarded bypasses the queue: the listener's datagram is the next offer to
      the session it finds, taken exactly if that queue has room and its task runs. */
  lemma ForwardIsOffered(cfg: Config, now: u64, ms: seq<Move>, f: Flow)
    requires Flows(cfg, Start(now), ms) == Some(f) && CanMove(cfg, f, Step(LookUp)) && Forwards(f.s)
    ensures var id, f' := f.s.t.sessions[f.s.listener.src], DoMove(cfg, f, Step(LookUp));
            && id in f.lines && f.hand + 1 == |f.received| && !f.lines[id].chan.hungUp
            && f'.lines[id].offers == f.lines[id].offers + [f.hand]
            && f'.lines[id].chan == D.Do(f.lines[id].chan, D.Offer(f.received[f.hand].1))
  {
    StartInv(cfg, now);
    FlowsKeep(cfg, Start(now), ms);
    ForwardIsNext(f);
  }

  /** The opening packet of a set-up is the datagram just received. */
  lemma OpeningIsInHand(cfg: Config, now: u64, ms: seq<Move>, f: Flow)
    requires Flows(cfg, Start(now), ms) == Some(f) && CanMove(cfg, f, Step(Spawn))
    ensures f.hand + 1 == |f.received| && f.received[f.hand].0 == f.s.listener.src
    ensures DoMove(cfg, f, Step(Spawn)).carried == f.carried[f.s.listener.id := |f.received| - 1]
  {
    StartInv(cfg, now);
    FlowsKeep(cfg, Start(now), ms);
    SpawnStep(cfg, f);
  }

  /** The relay task stamps its session with every datagram it takes and cancels it as it ends. */
  lemma RelayTaskMarks(cfg: Config, f: Flow, id: Id, a: D.Event)
    requires CanMove(cfg, f, Up(id, a))
    ensures var s' := DoMove(cfg, f, Up(id, a)).s;
            && (a.Receive? ==> Object(s'.t, id).last == f.s.now)
            && (DoMove(cfg, f, Up(id, a)).lines[id].chan.ended ==> LineOf(f, id).chan.ended || Object(s'.t, id).dead)
  {}

  /** The opening packet is offered before anything else can be, and is taken exactly if the
      relay task still runs. */
  lemma OpeningIsOffered(cfg: Config, now: u64, ms: seq<Move>, f: Flow, id: Id)
    requires Flows(cfg, Start(now), ms) == Some(f) && CanMove(cfg, f, FirstOffer(id))
    ensures id in f.lines && id in f.carried && f.carried[id] < |f.received|
    ensures var c := f.lines[id].chan;
            DoMove(cfg, f, FirstOffer(id)).lines[id].chan.offered == [(f.received[f.carried[id]].1, !c.ended)]
  {
    StartInv(cfg, now);
    FlowsKeep(cfg, Start(now), ms);
    FirstIsNext(cfg, f, id);
    assert LineInv(f, id);
    D.OpeningIsTaken(f.lines[id].chan, f.received[f.carried[id]].1);
  }
}
