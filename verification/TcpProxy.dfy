/** The whole TCP proxy: the accept loop of `TcpServe` with a `Connection` in every task, so
    that what is counted is what became of the connections (`src/proxy/tcp.rs`). */
module TcpProxy {
  import opened Machine
  import L = Limits
  import C = Connection
  import S = TcpServe
  import Copy
  import Relay
  import Watchdog

  type TaskId = S.TaskId

  /** A connection task; kept for the record when it has ended. */
  datatype Task = Task(c: C.Setup, st: C.State)

  datatype World = World(serve: S.State, tasks: map<TaskId, Task>)

  const START := World(S.INIT, map[])

  datatype Event =
    | Accept(c: C.Setup)
    | Serve(e: S.Event)                // the accept loop, the end of a task, the tokens
    | Conn(id: TaskId, a: C.Event)

  predicate OfServe(e: S.Event) {
    e.GaugeLowered? || e.TaskEnds? || e.Joined? || e.StopSeen? || e.AllJoined? || e.RequestStop? || e.RequestForce?
  }

  /** What the task's action means to the counters. */
  function Counted(id: TaskId, t: Task, a: C.Event): Option<S.Event>
    requires C.Can(t.c, t.st, a)
  {
    match a
    case Connected(_) => if C.Do(t.c, t.st, a).phase.Relaying? then Some(S.RelayStarts(id)) else None
    case HeaderSome(_, _) => if C.Do(t.c, t.st, a).phase.Relaying? then Some(S.RelayStarts(id)) else None
    case ConnectFailed => Some(S.ConnectFails(id))
    case HeaderFailed => Some(S.ConnectFails(id))
    case ConnectTimedOut => Some(S.ConnectTimesOut(id))
    case Cancelled => Some(S.SetupCancelled(id))
    case RelayStep(_) => None
    case RelayDone => Some(S.RelayEnds(id, t.st.phase.relay.wd.reason))
  }

  /** Both tokens a task looks at are children of the force token. */
  predicate NeedsForce(a: C.Event) {
    a.Cancelled? || a == C.RelayStep(Relay.RequestShutdown)
  }

  predicate Can(w: World, e: Event) {
    match e
    case Accept(c) => S.Can(w.serve, S.Accept(c.peer.ip))
    case Serve(x) => OfServe(x) && S.Can(w.serve, x)
    case Conn(id, a) =>
      && id in w.tasks && C.Can(w.tasks[id].c, w.tasks[id].st, a) && (NeedsForce(a) ==> w.serve.force)
      && (Counted(id, w.tasks[id], a).Some? ==> S.Can(w.serve, Counted(id, w.tasks[id], a).value))
  }

  function Advance(t: Task, a: C.Event): Task
    requires C.Can(t.c, t.st, a)
  {
    Task(t.c, C.Do(t.c, t.st, a))
  }

  function Do(caps: L.Caps, w: World, e: Event): World
    requires Can(w, e)
  {
    match e
    case Accept(c) =>
      var serve := S.Do(caps, w.serve, S.Accept(c.peer.ip));
      World(serve, if serve.next == w.serve.next then w.tasks else w.tasks[w.serve.next := Task(c, C.INIT)])
    case Serve(x) => w.(serve := S.Do(caps, w.serve, x))
    case Conn(id, a) =>
      var counted := Counted(id, w.tasks[id], a);
      World(if counted.Some? then S.Do(caps, w.serve, counted.value) else w.serve,
            w.tasks[id := Advance(w.tasks[id], a)])
  }

  function Run(caps: L.Caps, w: World, es: seq<Event>): Option<World>
    decreases |es|
  {
    if es == [] then Some(w)
    else if Can(w, es[0]) then Run(caps, Do(caps, w, es[0]), es[1..])
    else None
  }

  // ── Phases and places ─────────────────────────────────────────────────────

  predicate InSetup(p: C.Phase) {
    p.Connecting? || p.SendingHeader?
  }

  /** The task is where its connection's phase puts it. */
  predicate Placed(s: S.State, id: TaskId, p: C.Phase) {
    && id < s.next
    && (id in s.setup <==> InSetup(p))
    && (id in s.relaying <==> p.Relaying?)
    && (id in s.closing ==> p.Closed?)
  }

  ghost predicate TaskInv(w: World, id: TaskId)
    requires id in w.tasks
  {
    C.Inv(w.tasks[id].c, w.tasks[id].st) && Placed(w.serve, id, w.tasks[id].st.phase)
  }

  ghost predicate TasksInv(w: World) {
    && (forall id <- w.tasks :: TaskInv(w, id))
    && w.serve.setup + w.serve.relaying + w.serve.closing <= w.tasks.Keys
  }

  // ── Counting ──────────────────────────────────────────────────────────────

  /** The tasks whose connection ended so before it was relayed. */
  function EndedAs(w: World, o: C.Outcome): set<TaskId> {
    set id | id in w.tasks && w.tasks[id].st.phase == C.Abandoned(o)
  }

  /** The tasks whose relay was closed for this reason. */
  function ClosedAs(w: World, r: Watchdog.Reason): set<TaskId> {
    set id | id in w.tasks && IsClosedAs(w.tasks[id].st.phase, r)
  }

  predicate IsClosedAs(p: C.Phase, r: Watchdog.Reason) {
    p.Closed? && p.relay.wd == Relay.Returned(r)
  }

  ghost predicate CountsInv(w: World) {
    && w.serve.accepted == |w.tasks|
    && w.serve.failures == |EndedAs(w, C.ConnectFailure)|
    && w.serve.timeouts == |EndedAs(w, C.ConnectTimeout)|
    && w.serve.cancelled == |EndedAs(w, C.CancelledInSetup)|
    && forall r :: w.serve.closed[r] == |ClosedAs(w, r)|
  }

  ghost predicate Inv(caps: L.Caps, w: World) {
    S.Inv(caps, w.serve) && TasksInv(w) && CountsInv(w)
  }

  lemma StartInv(caps: L.Caps)
    ensures Inv(caps, START)
  {}

  /** The counters never stand in a task's way. */
  lemma CountersAllow(w: World, id: TaskId, a: C.Event)
    requires TasksInv(w) && id in w.tasks && C.Can(w.tasks[id].c, w.tasks[id].st, a)
    requires NeedsForce(a) ==> w.serve.force
    ensures Can(w, Conn(id, a))
  {
    assert TaskInv(w, id);
  }

  /** How an action moves a connection, and what is counted for it. */
  predicate Moves(counted: Option<S.Event>, id: TaskId, p: C.Phase, p': C.Phase) {
    match counted
    case None => (InSetup(p) && InSetup(p')) || (p.Relaying? && p'.Relaying?)
    case Some(e) =>
      match e
      case RelayStarts(i) => i == id && InSetup(p) && p'.Relaying?
      case ConnectFails(i) => i == id && InSetup(p) && p' == C.Abandoned(C.ConnectFailure)
      case ConnectTimesOut(i) => i == id && InSetup(p) && p' == C.Abandoned(C.ConnectTimeout)
      case SetupCancelled(i) => i == id && InSetup(p) && p' == C.Abandoned(C.CancelledInSetup)
      case RelayEnds(i, r) => i == id && p.Relaying? && p'.Closed? && p'.relay.wd == Relay.Returned(r)
      case _ => false
  }

  lemma ActionMoves(id: TaskId, t: Task, a: C.Event)
    requires C.Inv(t.c, t.st) && C.Can(t.c, t.st, a)
    ensures Moves(Counted(id, t, a), id, t.st.phase, Advance(t, a).st.phase)
    ensures C.Inv(t.c, Advance(t, a).st)
  {
    C.StepKeepsInv(t.c, t.st, a);
  }

  /** The tasks not joined yet. */
  function Live(s: S.State): set<TaskId> {
    s.setup + s.relaying + s.closing + s.leaving + s.ended
  }

  predicate SameTokens(s: S.State, s': S.State) {
    s'.listener == s.listener && s'.stop == s.stop && s'.force == s.force
  }

  /** What such a count does to the accept loop's books. */
  ghost predicate Books(counted: Option<S.Event>, id: TaskId, s: S.State, s': S.State) {
    && s'.next == s.next && s'.accepted == s.accepted
    && Live(s') == Live(s) && SameTokens(s, s')
    && s'.setup == (if counted.Some? then s.setup - {id} else s.setup)
    && s'.relaying == (if counted.None? then s.relaying
                       else if counted.value.RelayStarts? then s.relaying + {id} else s.relaying - {id})
    && s'.closing == (if counted.Some? && counted.value.RelayEnds? then s.closing + {id} else s.closing)
    && s'.failures == s.failures + One(counted.Some? && counted.value.ConnectFails?)
    && s'.timeouts == s.timeouts + One(counted.Some? && counted.value.ConnectTimesOut?)
    && s'.cancelled == s.cancelled + One(counted.Some? && counted.value.SetupCancelled?)
    && s'.closed == (if counted.Some? && counted.value.RelayEnds? then s.closed + multiset{counted.value.reason}
                     else s.closed)
  }

  function One(b: bool): nat {
    if b then 1 else 0
  }

  lemma CountBooks(caps: L.Caps, s: S.State, e: S.Event, id: TaskId, p: C.Phase, p': C.Phase)
    requires S.PlacesInv(s) && S.Can(s, e) && Moves(Some(e), id, p, p')
    ensures Books(Some(e), id, s, S.Do(caps, s, e))
  {
    assert Live(S.Do(caps, s, e)) == Live(s);
  }

  lemma EndedGains(w: World, w': World, id: TaskId, t': Task, o: C.Outcome)
    requires id in w.tasks && w'.tasks == w.tasks[id := t'] && !w.tasks[id].st.phase.Abandoned?
    ensures |EndedAs(w', o)| == |EndedAs(w, o)| + One(t'.st.phase == C.Abandoned(o))
  {
    assert EndedAs(w', o) == EndedAs(w, o) + if t'.st.phase == C.Abandoned(o) then {id} else {};
  }

  lemma ClosedGains(w: World, w': World, id: TaskId, t': Task, r: Watchdog.Reason)
    requires id in w.tasks && w'.tasks == w.tasks[id := t'] && !w.tasks[id].st.phase.Closed?
    ensures |ClosedAs(w', r)| == |ClosedAs(w, r)| + One(IsClosedAs(t'.st.phase, r))
  {
    assert ClosedAs(w', r) == ClosedAs(w, r) + if IsClosedAs(t'.st.phase, r) then {id} else {};
  }

  lemma MoveKeepsCounts(w: World, w': World, id: TaskId, t': Task, counted: Option<S.Event>)
    requires CountsInv(w) && id in w.tasks && w'.tasks == w.tasks[id := t']
    requires Moves(counted, id, w.tasks[id].st.phase, t'.st.phase) && Books(counted, id, w.serve, w'.serve)
    ensures CountsInv(w')
  {
    assert w'.tasks.Keys == w.tasks.Keys && |w'.tasks| == |w'.tasks.Keys| && |w.tasks| == |w.tasks.Keys|;
    EndedGains(w, w', id, t', C.ConnectFailure);
    EndedGains(w, w', id, t', C.ConnectTimeout);
    EndedGains(w, w', id, t', C.CancelledInSetup);
    forall r ensures w'.serve.closed[r] == |ClosedAs(w', r)| {
      ReasonGains(w, w', id, t', counted, r);
    }
  }

  lemma ReasonGains(w: World, w': World, id: TaskId, t': Task, counted: Option<S.Event>, r: Watchdog.Reason)
    requires w.serve.closed[r] == |ClosedAs(w, r)| && id in w.tasks && w'.tasks == w.tasks[id := t']
    requires Moves(counted, id, w.tasks[id].st.phase, t'.st.phase) && Books(counted, id, w.serve, w'.serve)
    ensures w'.serve.closed[r] == |ClosedAs(w', r)|
  {
    ClosedGains(w, w', id, t', r);
  }

  lemma MoveKeepsTasks(w: World, w': World, id: TaskId, t': Task, counted: Option<S.Event>)
    requires TasksInv(w) && S.PlacesInv(w.serve) && id in w.tasks && w'.tasks == w.tasks[id := t']
    requires Moves(counted, id, w.tasks[id].st.phase, t'.st.phase) && Books(counted, id, w.serve, w'.serve)
    requires C.Inv(t'.c, t'.st)
    ensures TasksInv(w')
  {
    assert TaskInv(w, id);
    forall i <- w'.tasks ensures TaskInv(w', i) {
      assert TaskInv(w, i);
    }
  }

  lemma ConnKeepsInv(caps: L.Caps, w: World, id: TaskId, a: C.Event)
    requires Inv(caps, w) && Can(w, Conn(id, a))
    ensures Inv(caps, Do(caps, w, Conn(id, a)))
  {
    var t, counted := w.tasks[id], Counted(id, w.tasks[id], a);
    assert C.Inv(t.c, t.st) by {
      assert TaskInv(w, id);
    }
    ActionMoves(id, t, a);
    CountedServe(caps, w.serve, counted, id, t.st.phase, Advance(t, a).st.phase);
    Moved(caps, w, Do(caps, w, Conn(id, a)), id, Advance(t, a), counted);
  }

  lemma CountedServe(caps: L.Caps, s: S.State, counted: Option<S.Event>, id: TaskId, p: C.Phase, p': C.Phase)
    requires S.Inv(caps, s) && Moves(counted, id, p, p') && (counted.Some? ==> S.Can(s, counted.value))
    ensures var s' := if counted.Some? then S.Do(caps, s, counted.value) else s;
            S.Inv(caps, s') && Books(counted, id, s, s')
  {
    if counted.Some? {
      S.StepKeepsInv(caps, s, counted.value);
      CountBooks(caps, s, counted.value, id, p, p');
    }
  }

  lemma Moved(caps: L.Caps, w: World, w': World, id: TaskId, t': Task, counted: Option<S.Event>)
    requires Inv(caps, w) && id in w.tasks && w'.tasks == w.tasks[id := t']
    requires S.Inv(caps, w'.serve) && C.Inv(t'.c, t'.st)
    requires Moves(counted, id, w.tasks[id].st.phase, t'.st.phase) && Books(counted, id, w.serve, w'.serve)
    ensures Inv(caps, w')
  {
    MoveKeepsTasks(w, w', id, t', counted);
    MoveKeepsCounts(w, w', id, t', counted);
  }

  lemma SameTasksCount(w: World, w': World)
    requires CountsInv(w) && w'.tasks == w.tasks && w'.serve.accepted == w.serve.accepted
    requires w'.serve.failures == w.serve.failures && w'.serve.timeouts == w.serve.timeouts
    requires w'.serve.cancelled == w.serve.cancelled && w'.serve.closed == w.serve.closed
    ensures CountsInv(w')
  {
    assert forall o :: EndedAs(w', o) == EndedAs(w, o);
    forall r ensures w'.serve.closed[r] == |ClosedAs(w', r)| {
      assert ClosedAs(w', r) == ClosedAs(w, r);
    }
  }

  lemma SameTasksPlaced(w: World, w': World)
    requires TasksInv(w) && w'.tasks == w.tasks && w'.serve.next == w.serve.next
    requires w'.serve.setup == w.serve.setup && w'.serve.relaying == w.serve.relaying
    requires w'.serve.closing <= w.serve.closing
    ensures TasksInv(w')
  {
    forall id <- w'.tasks ensures TaskInv(w', id) {
      assert TaskInv(w, id);
    }
  }

  lemma ServeKeepsInv(caps: L.Caps, w: World, e: S.Event)
    requires Inv(caps, w) && Can(w, Serve(e))
    ensures Inv(caps, Do(caps, w, Serve(e)))
  {
    var w' := Do(caps, w, Serve(e));
    S.StepKeepsInv(caps, w.serve, e);
    ServeFrame(caps, w.serve, e);
    SameTasksPlaced(w, w');
    SameTasksCount(w, w');
  }

  lemma ServeFrame(caps: L.Caps, s: S.State, e: S.Event)
    requires OfServe(e) && S.Can(s, e)
    ensures var s' := S.Do(caps, s, e);
            && s'.next == s.next && s'.setup == s.setup && s'.relaying == s.relaying && s'.closing <= s.closing
            && s'.accepted == s.accepted && s'.failures == s.failures && s'.timeouts == s.timeouts
            && s'.cancelled == s.cancelled && s'.closed == s.closed
  {}

  lemma NextIsNoTask(w: World)
    requires TasksInv(w)
    ensures w.serve.next !in w.tasks
  {
    forall id <- w.tasks ensures id < w.serve.next {
      assert TaskInv(w, id);
    }
  }

  lemma AcceptKeepsInv(caps: L.Caps, w: World, c: C.Setup)
    requires Inv(caps, w) && Can(w, Accept(c))
    ensures Inv(caps, Do(caps, w, Accept(c)))
  {
    S.StepKeepsInv(caps, w.serve, S.Accept(c.peer.ip));
    AcceptBooks(caps, w.serve, c);
    Accepted(caps, w, Do(caps, w, Accept(c)), c);
  }

  /** Admitted or not. */
  lemma AcceptBooks(caps: L.Caps, s: S.State, c: C.Setup)
    requires S.Can(s, S.Accept(c.peer.ip))
    ensures NewBooks(s, S.Do(caps, s, S.Accept(c.peer.ip)))
  {}

  ghost predicate NewBooks(s: S.State, s': S.State) {
    && s'.relaying == s.relaying && s'.closing == s.closing && s'.closed == s.closed
    && s'.failures == s.failures && s'.timeouts == s.timeouts && s'.cancelled == s.cancelled
    && (s'.next == s.next ==> s'.setup == s.setup && s'.accepted == s.accepted)
    && (s'.next != s.next ==>
          s'.next == s.next + 1 && s'.setup == s.setup + {s.next} && s'.accepted == s.accepted + 1)
  }

  lemma Accepted(caps: L.Caps, w: World, w': World, c: C.Setup)
    requires TasksInv(w) && CountsInv(w) && NewBooks(w.serve, w'.serve) && S.Inv(caps, w'.serve)
    requires w'.tasks == if w'.serve.next == w.serve.next then w.tasks
                         else w.tasks[w.serve.next := Task(c, C.INIT)]
    ensures Inv(caps, w')
  {
    if w'.serve.next == w.serve.next {
      SameTasksPlaced(w, w');
      SameTasksCount(w, w');
    } else {
      NextIsNoTask(w);
      NewTaskPlaced(w, w', c);
      NewTaskCounts(w, w', c);
    }
  }

  lemma NewTaskPlaced(w: World, w': World, c: C.Setup)
    requires TasksInv(w) && w.serve.next !in w.tasks && w'.tasks == w.tasks[w.serve.next := Task(c, C.INIT)]
    requires w'.serve.next == w.serve.next + 1 && w'.serve.setup == w.serve.setup + {w.serve.next}
    requires w'.serve.relaying == w.serve.relaying && w'.serve.closing == w.serve.closing
    ensures TasksInv(w')
  {
    forall id <- w'.tasks ensures TaskInv(w', id) {
      if id in w.tasks {
        assert TaskInv(w, id);
      }
    }
  }

  lemma NewTaskCounts(w: World, w': World, c: C.Setup)
    requires CountsInv(w) && w.serve.next !in w.tasks && w'.tasks == w.tasks[w.serve.next := Task(c, C.INIT)]
    requires w'.serve.accepted == w.serve.accepted + 1 && w'.serve.closed == w.serve.closed
    requires w'.serve.failures == w.serve.failures && w'.serve.timeouts == w.serve.timeouts
    requires w'.serve.cancelled == w.serve.cancelled
    ensures CountsInv(w')
  {
    assert w'.tasks.Keys == w.tasks.Keys + {w.serve.next};
    assert |w'.tasks| == |w'.tasks.Keys| && |w.tasks| == |w.tasks.Keys|;
    forall o ensures EndedAs(w', o) == EndedAs(w, o) {}
    forall r ensures w'.serve.closed[r] == |ClosedAs(w', r)| {
      assert ClosedAs(w', r) == ClosedAs(w, r);
    }
  }

  lemma StepKeepsInv(caps: L.Caps, w: World, e: Event)
    requires Inv(caps, w) && Can(w, e)
    ensures Inv(caps, Do(caps, w, e))
  {
    match e {
      case Accept(c) => AcceptKeepsInv(caps, w, c);
      case Serve(x) => ServeKeepsInv(caps, w, x);
      case Conn(id, a) => ConnKeepsInv(caps, w, id, a);
    }
  }

  lemma {:induction false} RunKeepsInv(caps: L.Caps, w: World, es: seq<Event>)
    requires Inv(caps, w) && Run(caps, w, es).Some?
    ensures Inv(caps, Run(caps, w, es).value)
    decreases |es|
  {
    if es != [] {
      StepKeepsInv(caps, w, es[0]);
      RunKeepsInv(caps, Do(caps, w, es[0]), es[1..]);
    }
  }

  // ── What the counters say ─────────────────────────────────────────────────

  /** In every reachable state each counter is the number of connections it claims to count, by
      what became of them: no connection is under two labels or counted twice. */
  lemma CountersAreTrue(caps: L.Caps, es: seq<Event>, w: World)
    requires Run(caps, START, es) == Some(w)
    ensures w.serve.accepted == |w.tasks|
    ensures w.serve.failures == |EndedAs(w, C.ConnectFailure)|
    ensures w.serve.timeouts == |EndedAs(w, C.ConnectTimeout)|
    ensures w.serve.cancelled == |EndedAs(w, C.CancelledInSetup)|
    ensures forall r :: w.serve.closed[r] == |ClosedAs(w, r)|
    ensures EndedAs(w, C.CancelledInSetup) != {} ==> w.serve.force
  {
    RunKeepsInv(caps, START, es);
  }

  /** The events of a run that match. */
  function Tally(es: seq<Event>, match': Event -> bool): nat {
    if es == [] then 0 else One(match'(es[0])) + Tally(es[1..], match')
  }

  predicate Fails(e: Event) {
    e.Conn? && (e.a.ConnectFailed? || e.a.HeaderFailed?)
  }

  predicate TimesOut(e: Event) {
    e.Conn? && e.a.ConnectTimedOut?
  }

  predicate Cancels(e: Event) {
    e.Conn? && e.a.Cancelled?
  }

  /** The relay that ends by `e` was closed for this reason. */
  predicate Closes(w: World, e: Event, r: Watchdog.Reason) {
    && e.Conn? && e.a.RelayDone? && e.id in w.tasks && w.tasks[e.id].st.phase.Relaying?
    && w.tasks[e.id].st.phase.relay.wd == Relay.Returned(r)
  }

  function Closings(caps: L.Caps, w: World, es: seq<Event>, r: Watchdog.Reason): nat
    requires Run(caps, w, es).Some?
    decreases |es|
  {
    if es == [] then 0 else One(Closes(w, es[0], r)) + Closings(caps, Do(caps, w, es[0]), es[1..], r)
  }

  lemma StepCounts(caps: L.Caps, w: World, e: Event, r: Watchdog.Reason)
    requires Can(w, e)
    ensures var s, s' := w.serve, Do(caps, w, e).serve;
            && s'.failures == s.failures + One(Fails(e)) && s'.timeouts == s.timeouts + One(TimesOut(e))
            && s'.cancelled == s.cancelled + One(Cancels(e)) && s'.closed[r] == s.closed[r] + One(Closes(w, e, r))
  {
    if e.Conn? {
      ConnCounts(caps, w, e.id, e.a, r);
    } else if e.Accept? {
      AcceptBooks(caps, w.serve, e.c);
    } else {
      ServeFrame(caps, w.serve, e.e);
    }
  }

  lemma ConnCounts(caps: L.Caps, w: World, id: TaskId, a: C.Event, r: Watchdog.Reason)
    requires Can(w, Conn(id, a))
    ensures var s, s', e := w.serve, Do(caps, w, Conn(id, a)).serve, Conn(id, a);
            && s'.failures == s.failures + One(Fails(e)) && s'.timeouts == s.timeouts + One(TimesOut(e))
            && s'.cancelled == s.cancelled + One(Cancels(e)) && s'.closed[r] == s.closed[r] + One(Closes(w, e, r))
  {}

  /** In any run, the failures are the connects and header writes that failed, the timeouts the
      connects that timed out, the cancellations those that the force token cut short, and the
      closes under a reason the relays whose watchdog returned it. */
  lemma {:induction false} CountersAreEvents(caps: L.Caps, w: World, es: seq<Event>, r: Watchdog.Reason)
    requires Run(caps, w, es).Some?
    ensures var s, s' := w.serve, Run(caps, w, es).value.serve;
            && s'.failures == s.failures + Tally(es, Fails) && s'.timeouts == s.timeouts + Tally(es, TimesOut)
            && s'.cancelled == s.cancelled + Tally(es, Cancels)
            && s'.closed[r] == s.closed[r] + Closings(caps, w, es, r)
    decreases |es|
  {
    if es != [] {
      StepCounts(caps, w, es[0], r);
      CountersAreEvents(caps, Do(caps, w, es[0]), es[1..], r);
    }
  }

  /** A connection counted as closed with "eof" was delivered in full both ways, its upstream
      socket having been given the header, if any, and exactly the client's bytes. */
  lemma EofCountsDelivered(caps: L.Caps, es: seq<Event>, w: World, id: TaskId)
    requires Run(caps, START, es) == Some(w) && id in ClosedAs(w, Watchdog.CleanEof)
    ensures var t := w.tasks[id];
            var r := t.st.phase.relay;
            && r.up.written == t.c.streams.up && r.down.written == t.c.streams.down && r.up.shut && r.down.shut
            && t.st.wire == C.HeaderOf(t.c) + t.c.streams.up
  {
    RunKeepsInv(caps, START, es);
    assert TaskInv(w, id);
    ClosedCleanly(w.tasks[id].c, w.tasks[id].st);
  }

  lemma ClosedCleanly(c: C.Setup, st: C.State)
    requires C.Inv(c, st) && IsClosedAs(st.phase, Watchdog.CleanEof)
    ensures var r := st.phase.relay;
            && r.up.written == c.streams.up && r.down.written == c.streams.down && r.up.shut && r.down.shut
            && st.wire == C.HeaderOf(c) + c.streams.up
  {
    RelayedCleanly(c.streams, st.phase.relay);
  }

  lemma RelayedCleanly(net: Relay.Streams, r: Relay.State)
    requires Relay.Inv(net, r) && r.wd == Relay.Returned(Watchdog.CleanEof)
    ensures r.up.written == net.up && r.down.written == net.down && r.up.shut && r.down.shut
  {}

  // ── Winding down ──────────────────────────────────────────────────────────

  /** The next step of a relay that was told to stop, by itself and whatever its peers do. */
  function NextRelay(r: Relay.State): Relay.Event
    requires !Relay.Joined(r)
  {
    if r.wd.Returned? then
      if !r.up.pc.Done? then Relay.CopyStep(Watchdog.Up, Copy.OwnAction(r.up, r.cancel))
      else Relay.CopyStep(Watchdog.Down, Copy.OwnAction(r.down, r.cancel))
    else if !r.shutdown then Relay.RequestShutdown
    else if r.wd.Top? then Relay.BeginTurn
    else if r.wd.Looking? then Relay.Look
    else Relay.SeeShutdown
  }

  const JOIN_STEPS: nat := 2 * (4 + Copy.BUF_SIZE)

  function RelaySteps(r: Relay.State): nat {
    if r.wd.Returned? then Relay.JoinRank(r)
    else JOIN_STEPS + One(!r.shutdown) + if r.wd.Top? then 3 else if r.wd.Looking? then 2 else 1
  }

  lemma RelayGoesOn(cfg: Watchdog.Config, net: Relay.Streams, r: Relay.State)
    requires Relay.Inv(net, r) && !Relay.Joined(r)
    ensures Relay.Can(net, r, NextRelay(r))
    ensures RelaySteps(Relay.Do(cfg, net, r, NextRelay(r))) < RelaySteps(r) <= JOIN_STEPS + 4
  {
    var e := NextRelay(r);
    if r.wd.Returned? {
      Relay.ReturnedMeansEnding(net, r);
      assert Relay.Can(net, r, Relay.CopyStep(e.dir, Copy.OwnAction(Relay.Side(r, e.dir), r.cancel)));
      Relay.StepAfterReturn(cfg, net, r, e);
    } else {
      WatchdogGoesOn(cfg, net, r);
    }
  }

  lemma WatchdogGoesOn(cfg: Watchdog.Config, net: Relay.Streams, r: Relay.State)
    requires Relay.Inv(net, r) && !r.wd.Returned?
    ensures Relay.Can(net, r, NextRelay(r))
    ensures RelaySteps(Relay.Do(cfg, net, r, NextRelay(r))) < RelaySteps(r)
  {
    var r' := Relay.Do(cfg, net, r, NextRelay(r));
    Relay.StepKeepsInv(cfg, net, r, NextRelay(r));
    if r'.wd.Returned? {
      Relay.ReturnedMeansEnding(net, r');
    }
  }

  /** The next step of a task, once the force token is set. */
  function NextOf(w: World, id: TaskId): Event
    requires id in w.serve.relaying ==> id in w.tasks && w.tasks[id].st.phase.Relaying?
  {
    if id in w.serve.setup then Conn(id, C.Cancelled)
    else if id in w.serve.relaying then
      var r := w.tasks[id].st.phase.relay;
      Conn(id, if Relay.Joined(r) then C.RelayDone else C.RelayStep(NextRelay(r)))
    else if id in w.serve.closing then Serve(S.GaugeLowered(id))
    else if id in w.serve.leaving then Serve(S.TaskEnds(id))
    else Serve(S.Joined(id))
  }

  function TaskSteps(w: World, id: TaskId): nat {
    if id in w.serve.setup then 3
    else if id in w.serve.relaying then
      4 + if id in w.tasks && w.tasks[id].st.phase.Relaying? then RelaySteps(w.tasks[id].st.phase.relay) else 0
    else if id in w.serve.closing then 3
    else if id in w.serve.leaving then 2
    else 1
  }

  const TASK_STEPS: nat := JOIN_STEPS + 8

  /** One such step: the task is nearer to its end, everybody else is where they were. */
  ghost predicate Nearer(w: World, id: TaskId, w': World) {
    && SameTokens(w.serve, w'.serve)
    && if TaskSteps(w, id) == 1 then Live(w'.serve) == Live(w.serve) - {id}
       else Live(w'.serve) == Live(w.serve) && TaskSteps(w', id) < TaskSteps(w, id)
  }

  lemma NextGoes(caps: L.Caps, w: World, id: TaskId)
    requires Inv(caps, w) && w.serve.force && id in Live(w.serve)
    ensures id in w.serve.relaying ==> id in w.tasks && w.tasks[id].st.phase.Relaying?
    ensures Can(w, NextOf(w, id)) && Nearer(w, id, Do(caps, w, NextOf(w, id)))
  {
    if id in w.serve.setup {
      assert TaskInv(w, id);
      SetupGoes(caps, w, id);
    } else if id in w.serve.relaying {
      assert TaskInv(w, id);
      RelayingGoes(caps, w, id);
    } else {
      LateGoes(caps, w, id);
    }
  }

  lemma SetupGoes(caps: L.Caps, w: World, id: TaskId)
    requires S.PlacesInv(w.serve) && w.serve.force && id in w.serve.setup
    requires id in w.tasks && InSetup(w.tasks[id].st.phase)
    ensures Can(w, Conn(id, C.Cancelled)) && Nearer(w, id, Do(caps, w, Conn(id, C.Cancelled)))
  {
    assert Live(Do(caps, w, Conn(id, C.Cancelled)).serve) == Live(w.serve);
  }

  lemma RelayingGoes(caps: L.Caps, w: World, id: TaskId)
    requires S.PlacesInv(w.serve) && w.serve.force && id in w.serve.relaying
    requires id in w.tasks && w.tasks[id].st.phase.Relaying? && C.Inv(w.tasks[id].c, w.tasks[id].st)
    ensures Can(w, NextOf(w, id)) && Nearer(w, id, Do(caps, w, NextOf(w, id)))
  {
    var t := w.tasks[id];
    var r := t.st.phase.relay;
    assert id !in w.serve.setup;
    if Relay.Joined(r) {
      assert Live(Do(caps, w, Conn(id, C.RelayDone)).serve) == Live(w.serve);
    } else {
      RelayGoesOn(t.c.timers, t.c.streams, r);
      var a := C.RelayStep(NextRelay(r));
      assert Advance(t, a).st.phase == C.Relaying(Relay.Do(t.c.timers, t.c.streams, r, NextRelay(r)));
    }
  }

  lemma LateGoes(caps: L.Caps, w: World, id: TaskId)
    requires S.PlacesInv(w.serve) && id in Live(w.serve) && id !in w.serve.setup && id !in w.serve.relaying
    ensures Can(w, NextOf(w, id)) && Nearer(w, id, Do(caps, w, NextOf(w, id)))
  {
    if id in w.serve.closing {
      ClosingGoes(caps, w, id);
    } else if id in w.serve.leaving {
      LeavingGoes(caps, w, id);
    } else {
      assert Live(Do(caps, w, Serve(S.Joined(id))).serve) == Live(w.serve) - {id};
    }
  }

  lemma ClosingGoes(caps: L.Caps, w: World, id: TaskId)
    requires S.PlacesInv(w.serve) && id in w.serve.closing
    ensures Can(w, Serve(S.GaugeLowered(id))) && Nearer(w, id, Do(caps, w, Serve(S.GaugeLowered(id))))
  {
    assert Live(Do(caps, w, Serve(S.GaugeLowered(id))).serve) == Live(w.serve);
  }

  lemma LeavingGoes(caps: L.Caps, w: World, id: TaskId)
    requires S.PlacesInv(w.serve) && id in w.serve.leaving
    ensures Can(w, Serve(S.TaskEnds(id))) && Nearer(w, id, Do(caps, w, Serve(S.TaskEnds(id))))
  {
    assert Live(Do(caps, w, Serve(S.TaskEnds(id))).serve) == Live(w.serve);
  }

  lemma RunCons(caps: L.Caps, w: World, e: Event, rest: seq<Event>)
    requires Can(w, e)
    ensures Run(caps, w, [e] + rest) == Run(caps, Do(caps, w, e), rest)
  {
    assert ([e] + rest)[1..] == rest;
  }

  lemma {:induction false} RunJoin(caps: L.Caps, w: World, xs: seq<Event>, m: World, ys: seq<Event>)
    requires Run(caps, w, xs) == Some(m)
    ensures Run(caps, w, xs + ys) == Run(caps, m, ys)
    decreases |xs|
  {
    if xs == [] {
      assert xs + ys == ys;
    } else {
      assert (xs + ys)[1..] == xs[1..] + ys;
      RunJoin(caps, Do(caps, w, xs[0]), xs[1..], m, ys);
    }
  }

  /** One task is brought to its end and joined. */
  lemma {:induction false} FinishTask(caps: L.Caps, w: World, id: TaskId) returns (es: seq<Event>, w': World)
    requires Inv(caps, w) && w.serve.force && id in Live(w.serve)
    ensures Run(caps, w, es) == Some(w') && Inv(caps, w') && SameTokens(w.serve, w'.serve)
    ensures Live(w'.serve) == Live(w.serve) - {id} && |es| <= TaskSteps(w, id)
    decreases TaskSteps(w, id)
  {
    NextGoes(caps, w, id);
    var e := NextOf(w, id);
    StepKeepsInv(caps, w, e);
    var w1 := Do(caps, w, e);
    var rest := [];
    w' := w1;
    if TaskSteps(w, id) != 1 {
      rest, w' := FinishTask(caps, w1, id);
    }
    es := [e] + rest;
    RunCons(caps, w, e, rest);
  }

  lemma StepsBounded(caps: L.Caps, w: World, id: TaskId)
    requires Inv(caps, w)
    ensures TaskSteps(w, id) <= TASK_STEPS
  {
    if id in w.serve.relaying && id in w.tasks && w.tasks[id].st.phase.Relaying? {
      assert TaskInv(w, id);
      RelayBounded(w.tasks[id].c.streams, w.tasks[id].st.phase.relay);
    }
  }

  lemma RelayBounded(net: Relay.Streams, r: Relay.State)
    requires Relay.Inv(net, r)
    ensures RelaySteps(r) <= JOIN_STEPS + 4
  {
    if r.wd.Returned? {
      Relay.ReturnedMeansEnding(net, r);
    }
  }

  lemma {:induction false} FinishTasks(caps: L.Caps, w: World) returns (es: seq<Event>, w': World)
    requires Inv(caps, w) && w.serve.force
    ensures Run(caps, w, es) == Some(w') && Inv(caps, w') && SameTokens(w.serve, w'.serve)
    ensures Live(w'.serve) == {} && |es| <= TASK_STEPS * |Live(w.serve)|
    decreases |Live(w.serve)|
  {
    if Live(w.serve) == {} {
      es, w' := [], w;
    } else {
      var id :| id in Live(w.serve);
      var first, w1 := FinishSome(caps, w, id);
      var rest;
      rest, w' := FinishTasks(caps, w1);
      es := first + rest;
      RunJoin(caps, w, first, w1, rest);
      OneFewer(|first|, |rest|, |Live(w.serve)|);
    }
  }

  lemma FinishSome(caps: L.Caps, w: World, id: TaskId) returns (es: seq<Event>, w': World)
    requires Inv(caps, w) && w.serve.force && id in Live(w.serve)
    ensures Run(caps, w, es) == Some(w') && Inv(caps, w') && SameTokens(w.serve, w'.serve)
    ensures Live(w'.serve) == Live(w.serve) - {id} && |Live(w'.serve)| == |Live(w.serve)| - 1 && |es| <= TASK_STEPS
  {
    StepsBounded(caps, w, id);
    es, w' := FinishTask(caps, w, id);
  }

  lemma OneFewer(first: nat, rest: nat, live: nat)
    requires live > 0 && first <= TASK_STEPS && rest <= TASK_STEPS * (live - 1)
    ensures first + rest <= TASK_STEPS * live
  {}

  /** Shutting down never gets stuck: once both tokens are set, in whatever state the proxy and
      its connections are, `serve_graceful` can return by the proxy's own steps alone, in a
      number of them that grows only with the number of live tasks. No peer has to do anything,
      and no timer has to run out. */
  lemma CanAlwaysReturn(caps: L.Caps, es: seq<Event>, w: World) returns (more: seq<Event>, w': World)
    requires Run(caps, START, es) == Some(w) && w.serve.stop && w.serve.force && w.serve.listener != S.Returned
    ensures Run(caps, w, more) == Some(w') && w'.serve.listener == S.Returned
    ensures |more| <= 2 + TASK_STEPS * |Live(w.serve)|
  {
    RunKeepsInv(caps, START, es);
    var stop, w1 := StopListening(caps, w);
    var tasks, w2 := FinishTasks(caps, w1);
    var last;
    last, w' := LastStep(caps, w2);
    RunJoin(caps, w1, tasks, w2, last);
    RunJoin(caps, w, stop, w1, tasks + last);
    more := stop + (tasks + last);
  }

  lemma LastStep(caps: L.Caps, w: World) returns (es: seq<Event>, w': World)
    requires w.serve.listener == S.Joining && Live(w.serve) == {}
    ensures Run(caps, w, es) == Some(w') && w'.serve.listener == S.Returned && |es| == 1
  {
    var e := Serve(S.AllJoined);
    RunCons(caps, w, e, []);
    es, w' := [e] + [], Do(caps, w, e);
  }

  lemma StopListening(caps: L.Caps, w: World) returns (es: seq<Event>, w': World)
    requires Inv(caps, w) && w.serve.stop && w.serve.listener != S.Returned
    ensures Run(caps, w, es) == Some(w') && Inv(caps, w') && |es| <= 1
    ensures w'.serve.listener == S.Joining && w'.serve.force == w.serve.force && Live(w'.serve) == Live(w.serve)
  {
    if w.serve.listener == S.Joining {
      es, w' := [], w;
    } else {
      var e := Serve(S.StopSeen);
      es, w' := [e] + [], Do(caps, w, e);
      StepKeepsInv(caps, w, e);
      RunCons(caps, w, e, []);
    }
  }
}
