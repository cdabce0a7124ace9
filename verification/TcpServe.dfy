/** The TCP accept loop and its connection tasks: `serve_graceful` and the counters of
    `handle` and `relay` in `src/proxy/tcp.rs`. */
module TcpServe {
  import opened Machine
  import opened Net
  import opened Limits
  import opened Slots
  import Watchdog

  type TaskId = nat

  datatype Listener = Accepting | Joining | Returned

  /** A task moves from `setup` (connecting, writing the header) over `relaying` and `closing`
      (close counted, gauge not yet lowered) to `leaving` (its guard is all it still holds) and
      then waits to be joined. */
  datatype State = State(
    listener: Listener, stop: bool, force: bool,
    setup: set<TaskId>, relaying: set<TaskId>, closing: set<TaskId>, leaving: set<TaskId>, ended: set<TaskId>,
    who: Owners, held: Guards, ledger: Ledger,
    accepted: nat, rejected: nat, failures: nat, timeouts: nat, cancelled: nat,
    closed: multiset<Watchdog.Reason>, active: int,
    next: TaskId)

  const INIT :=
    State(Accepting, false, false, {}, {}, {}, {}, {}, map[], multiset{}, EMPTY, 0, 0, 0, 0, 0, multiset{}, 0, 0)

  datatype Event =
    | Accept(ip: IpAddr)
    | ConnectFails(id: TaskId)      // or the header write fails
    | ConnectTimesOut(id: TaskId)
    | SetupCancelled(id: TaskId)
    | RelayStarts(id: TaskId)
    | RelayEnds(id: TaskId, reason: Watchdog.Reason)
    | GaugeLowered(id: TaskId)
    | TaskEnds(id: TaskId)
    | Joined(id: TaskId)
    | StopSeen | AllJoined
    | RequestStop | RequestForce

  predicate Can(s: State, e: Event) {
    match e
    case Accept(ip) => s.listener == Accepting && |s.held| < U32_MAX && NoOverflow(s.ledger, ip)
    case ConnectFails(id) => id in s.setup
    case ConnectTimesOut(id) => id in s.setup
    case SetupCancelled(id) => id in s.setup && s.force
    case RelayStarts(id) => id in s.setup
    case RelayEnds(id, _) => id in s.relaying
    case GaugeLowered(id) => id in s.closing
    case TaskEnds(id) => id in s.leaving && id in s.who
    case Joined(id) => id in s.ended
    case StopSeen => s.listener == Accepting && s.stop
    case AllJoined => s.listener == Joining && s.setup + s.relaying + s.closing + s.leaving + s.ended == {}
    case RequestStop => true
    case RequestForce => true
  }

  function Admit(s: State, ip: IpAddr, answer: (Ledger, Outcome)): State {
    if answer.1.Rejected? then s.(ledger := answer.0, rejected := s.rejected + 1)
    else s.(ledger := answer.0, held := s.held + multiset{ip}, who := s.who[s.next := ip],
            accepted := s.accepted + 1, setup := s.setup + {s.next}, next := s.next + 1)
  }

  function Do(caps: Caps, s: State, e: Event): State
    requires Can(s, e)
  {
    match e
    case Accept(ip) => Admit(s, ip, TryAcquire(caps, s.ledger, ip))
    case ConnectFails(id) => s.(setup := s.setup - {id}, leaving := s.leaving + {id}, failures := s.failures + 1)
    case ConnectTimesOut(id) => s.(setup := s.setup - {id}, leaving := s.leaving + {id}, timeouts := s.timeouts + 1)
    case SetupCancelled(id) => s.(setup := s.setup - {id}, leaving := s.leaving + {id}, cancelled := s.cancelled + 1)
    case RelayStarts(id) => s.(setup := s.setup - {id}, relaying := s.relaying + {id}, active := s.active + 1)
    case RelayEnds(id, reason) =>
      s.(relaying := s.relaying - {id}, closing := s.closing + {id}, closed := s.closed + multiset{reason})
    case GaugeLowered(id) => s.(closing := s.closing - {id}, leaving := s.leaving + {id}, active := s.active - 1)
    case TaskEnds(id) =>
      s.(leaving := s.leaving - {id}, ended := s.ended + {id},
         who := s.who - {id}, held := s.held - multiset{s.who[id]}, ledger := Release(s.ledger, s.who[id]))
    case Joined(id) => s.(ended := s.ended - {id})
    case StopSeen => s.(listener := Joining)
    case AllJoined => s.(listener := Returned)
    case RequestStop => s.(stop := true)
    case RequestForce => s.(force := true)
  }

  function Run(caps: Caps, s: State, es: seq<Event>): Option<State>
    decreases |es|
  {
    if es == [] then Some(s)
    else if Can(s, es[0]) then Run(caps, Do(caps, s, es[0]), es[1..])
    else None
  }

  /** Every task is in one place, and `who` names the owners of the live guards. */
  ghost predicate PlacesInv(s: State) {
    && s.who.Keys == s.setup + s.relaying + s.closing + s.leaving
    && s.setup !! s.relaying !! s.closing !! s.leaving !! s.ended
    && (forall id <- s.who :: id < s.next)
    && (forall id <- s.ended :: id < s.next)
  }

  ghost predicate SlotsInv(caps: Caps, s: State) {
    Sound(caps, s.ledger, s.held) && Matches(s.held, s.who)
  }

  ghost predicate CountsInv(s: State) {
    && s.accepted == s.failures + s.timeouts + s.cancelled + |s.closed| + |s.setup| + |s.relaying|
    && s.active == |s.relaying| + |s.closing|
    && (s.cancelled > 0 ==> s.force)
    && (s.listener == Returned ==> s.stop && s.who == map[] && s.ended == {})
    && (s.listener == Joining ==> s.stop)
  }

  ghost predicate Inv(caps: Caps, s: State) {
    PlacesInv(s) && SlotsInv(caps, s) && CountsInv(s)
  }

  lemma StepKeepsInv(caps: Caps, s: State, e: Event)
    requires Inv(caps, s) && Can(s, e)
    ensures Inv(caps, Do(caps, s, e))
  {
    StepKeepsPlaces(caps, s, e);
    StepKeepsSlots(caps, s, e);
    StepKeepsCounts(caps, s, e);
  }

  lemma StepKeepsPlaces(caps: Caps, s: State, e: Event)
    requires PlacesInv(s) && Can(s, e)
    ensures PlacesInv(Do(caps, s, e))
  {
    if e.Accept? {
      AdmitKeepsPlaces(s, e.ip, TryAcquire(caps, s.ledger, e.ip));
    }
  }

  lemma AdmitKeepsPlaces(s: State, ip: IpAddr, answer: (Ledger, Outcome))
    requires PlacesInv(s)
    ensures PlacesInv(Admit(s, ip, answer))
  {}

  lemma StepKeepsSlots(caps: Caps, s: State, e: Event)
    requires PlacesInv(s) && SlotsInv(caps, s) && Can(s, e)
    ensures SlotsInv(caps, Do(caps, s, e))
  {
    match e {
      case Accept(ip) =>
        AcquireIsSound(caps, s.ledger, s.held, ip);
        Take(s.held, s.who, s.next, ip);
      case TaskEnds(id) =>
        Give(s.held, s.who, id);
        ReleaseIsSound(caps, s.ledger, s.held, s.who[id]);
      case _ =>
    }
  }

  lemma StepKeepsCounts(caps: Caps, s: State, e: Event)
    requires PlacesInv(s) && CountsInv(s) && Can(s, e)
    ensures CountsInv(Do(caps, s, e))
  {
    if e.Accept? {
      NextIsNew(s);
      AdmitKeepsCounts(s, e.ip, TryAcquire(caps, s.ledger, e.ip));
    } else if e.AllJoined? {
      assert s.who.Keys == {};
    } else if e.ConnectFails? || e.ConnectTimesOut? || e.SetupCancelled? || e.RelayStarts? {
      SetupEndsKeepsCounts(caps, s, e);
    } else {
      LaterStepKeepsCounts(caps, s, e);
    }
  }

  lemma SetupEndsKeepsCounts(caps: Caps, s: State, e: Event)
    requires PlacesInv(s) && CountsInv(s) && Can(s, e)
    requires e.ConnectFails? || e.ConnectTimesOut? || e.SetupCancelled? || e.RelayStarts?
    ensures CountsInv(Do(caps, s, e))
  {}

  lemma LaterStepKeepsCounts(caps: Caps, s: State, e: Event)
    requires PlacesInv(s) && CountsInv(s) && Can(s, e) && !e.Accept? && !e.AllJoined?
    requires !e.ConnectFails? && !e.ConnectTimesOut? && !e.SetupCancelled? && !e.RelayStarts?
    ensures CountsInv(Do(caps, s, e))
  {}

  lemma NextIsNew(s: State)
    requires PlacesInv(s)
    ensures s.next !in s.setup
  {
    forall id <- s.setup ensures id < s.next {
      assert id in s.who.Keys;
    }
  }

  lemma AdmitKeepsCounts(s: State, ip: IpAddr, answer: (Ledger, Outcome))
    requires CountsInv(s) && s.listener == Accepting && s.next !in s.setup
    ensures CountsInv(Admit(s, ip, answer))
  {
    if answer.1.Admitted? {
      OneMore(s.setup, s.next);
    }
  }

  lemma OneMore(ids: set<TaskId>, id: TaskId)
    requires id !in ids
    ensures |ids + {id}| == |ids| + 1
  {}

  lemma {:induction false} RunKeepsInv(caps: Caps, s: State, es: seq<Event>)
    requires Inv(caps, s) && Run(caps, s, es).Some?
    ensures Inv(caps, Run(caps, s, es).value)
    decreases |es|
  {
    if es != [] {
      StepKeepsInv(caps, s, es[0]);
      RunKeepsInv(caps, Do(caps, s, es[0]), es[1..]);
    }
  }

  /** At every moment of every run: each accepted connection is accounted for exactly once, the
      gauge counts the open relays, and the limiter counts the live tasks, in total and per
      address, within both caps. */
  lemma Accounting(caps: Caps, es: seq<Event>, s: State, ip: IpAddr)
    requires Run(caps, INIT, es) == Some(s)
    ensures s.accepted == s.failures + s.timeouts + s.cancelled + |s.closed| + |s.setup| + |s.relaying|
    ensures |s.relaying| <= s.active == |s.relaying| + |s.closing|
    ensures s.ledger.total == |s.setup + s.relaying + s.closing + s.leaving|
    ensures Count(s.ledger, ip) == |OwnedBy(s.who, ip)|
    ensures caps.maxTotal > 0 ==> |s.who| <= caps.maxTotal
    ensures caps.maxPerIp > 0 ==> |OwnedBy(s.who, ip)| <= caps.maxPerIp
    ensures s.cancelled > 0 ==> s.force
  {
    RunKeepsInv(caps, INIT, es);
    assert |s.who| == |s.who.Keys|;
    assert Count(s.ledger, ip) == s.held[ip];
  }

  /** When `serve_graceful` returns, nothing is left: every accepted connection has its outcome
      counted, the gauge is zero and the limiter is empty. */
  lemma ReturnedMeansEmpty(caps: Caps, es: seq<Event>, s: State)
    requires Run(caps, INIT, es) == Some(s) && s.listener == Returned
    ensures s.accepted == s.failures + s.timeouts + s.cancelled + |s.closed|
    ensures s.active == 0 && s.ledger.total == 0 && s.ledger.perIp == map[]
    ensures s.stop
  {
    RunKeepsInv(caps, INIT, es);
    assert s.setup == {} && s.relaying == {} && s.closing == {};
    assert s.held == multiset{};
    assert forall ip <- s.ledger.perIp :: Count(s.ledger, ip) == 0;
  }

  // ── Refusals ──────────────────────────────────────────────────────────────

  /** The connection accepted by `e` meets a cap. */
  predicate Refused(caps: Caps, s: State, e: Event) {
    e.Accept? && (0 < caps.maxTotal <= |s.held| || 0 < caps.maxPerIp <= s.held[e.ip])
  }

  function Refusals(caps: Caps, s: State, es: seq<Event>): nat
    requires Run(caps, s, es).Some?
    decreases |es|
  {
    if es == [] then 0 else (if Refused(caps, s, es[0]) then 1 else 0) + Refusals(caps, Do(caps, s, es[0]), es[1..])
  }

  function Accepts(es: seq<Event>): nat {
    if es == [] then 0 else (if es[0].Accept? then 1 else 0) + Accepts(es[1..])
  }

  lemma StepRefuses(caps: Caps, s: State, e: Event)
    requires SlotsInv(caps, s) && Can(s, e)
    ensures var s' := Do(caps, s, e);
            && s'.rejected == s.rejected + (if Refused(caps, s, e) then 1 else 0)
            && s'.accepted == s.accepted + (if e.Accept? && !Refused(caps, s, e) then 1 else 0)
  {
    if e.Accept? {
      AcquireIsSound(caps, s.ledger, s.held, e.ip);
    }
  }

  /** In any run, `rejected` counts exactly the connections that met a cap, and `accepted` all
      the others. */
  lemma {:induction false} RejectedMetACap(caps: Caps, s: State, es: seq<Event>)
    requires Inv(caps, s) && Run(caps, s, es).Some?
    ensures var s' := Run(caps, s, es).value;
            && s'.rejected == s.rejected + Refusals(caps, s, es)
            && s'.accepted + s'.rejected == s.accepted + s.rejected + Accepts(es)
    decreases |es|
  {
    if es != [] {
      StepRefuses(caps, s, es[0]);
      StepKeepsInv(caps, s, es[0]);
      RejectedMetACap(caps, Do(caps, s, es[0]), es[1..]);
    }
  }
}
