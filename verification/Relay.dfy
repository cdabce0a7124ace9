/** The relay of one TCP connection: both `copy_dir` tasks and the `watchdog` of
    `src/proxy/tcp.rs`, interleaved in every possible way, with a clock. */
module Relay {
  import opened Machine
  import opened Copy
  import opened Watchdog

  /** Everything either peer would ever send before closing. */
  datatype Streams = Streams(up: Bytes, down: Bytes)

  datatype WdPc =
    | Top                              // start of an iteration
    | Looking(now: u64)                // the clock was read, the stamp not yet
    | Asleep(from: u64, until: nat)    // in the select, timer armed
    | Returned(reason: Reason)

  datatype State = State(
    up: Task, down: Task,
    wd: WdPc, flags: Flags,
    cancel: bool, shutdown: bool,
    queue: seq<(Dir, End)>,            // the capacity-2 completion channel
    now: u64,
    stamps: seq<u64>,                  // the values of last_activity so far, newest last
    firstReport: Option<u64>,          // when the first completion message was sent
    turns: nat, naps: nat, mail: nat)  // watchdog iterations; those ended by timer, by message

  const CAPACITY := 2

  function Side(s: State, d: Dir): Task {
    if d == Up then s.up else s.down
  }

  function SetSide(s: State, d: Dir, t: Task): State {
    if d == Up then s.(up := t) else s.(down := t)
  }

  function Source(net: Streams, d: Dir): Bytes {
    if d == Up then net.up else net.down
  }

  function DoneFlag(s: State, d: Dir): bool {
    if d == Up then s.flags.upDone else s.flags.downDone
  }

  function Last(s: State): u64 {
    if s.stamps == [] then 0 else s.stamps[|s.stamps| - 1]
  }

  function Init(start: u64): State {
    State(START, START, Top, FRESH, false, false, [], start, [start], None, 0, 0, 0)
  }

  // ── Steps ─────────────────────────────────────────────────────────────────

  datatype Event =
    | CopyStep(dir: Dir, e: Action)
    | BeginTurn | Look
    | SeeShutdown | Receive | SeeClosed | Wake
    | Tick(ms: nat)
    | RequestShutdown

  predicate Can(net: Streams, s: State, e: Event) {
    match e
    case CopyStep(d, a) =>
      && Able(Side(s, d), a, Source(net, d), s.cancel)
      && (a == Sent ==> s.wd.Returned? || |s.queue| < CAPACITY)
    case BeginTurn => s.wd.Top?
    case Look => s.wd.Looking?
    case SeeShutdown => s.wd.Asleep? && s.shutdown
    case Receive => s.wd.Asleep? && s.flags.channelOpen && s.queue != []
    case SeeClosed => s.wd.Asleep? && s.flags.channelOpen && s.queue == [] && s.up.pc.Done? && s.down.pc.Done?
    case Wake => s.wd.Asleep? && s.now >= s.wd.until
    case Tick(ms) => s.now + ms < U64_MAX
    case RequestShutdown => true
  }

  function Close(s: State, reason: Reason): State {
    s.(wd := Returned(reason), cancel := true)
  }

  /** A direction's action leaves it in `t'`, and touches the stamp or the channel. */
  function AfterCopy(s: State, d: Dir, a: Action, t': Task): State {
    var s' := SetSide(s, d, t');
    if a == StoreStamp then s'.(stamps := s.stamps + [s.now])
    else if a == Sent then
      s'.(queue := if s.wd.Returned? then s.queue else s.queue + [(d, t'.end)],
          firstReport := if s.firstReport.None? then Some(s.now) else s.firstReport)
    else s'
  }

  /** After the `select!` of the current iteration resolved to `w`. */
  function Resolve(s: State, w: Watchdog.Wake): State {
    var (flags, reason) := React(s.flags, w);
    if reason.Some? then Close(s.(flags := flags), reason.value) else s.(flags := flags, wd := Top)
  }

  function Do(cfg: Config, net: Streams, s: State, e: Event): State
    requires Can(net, s, e)
  {
    match e
    case CopyStep(d, a) => AfterCopy(s, d, a, Act(Side(s, d), a, Source(net, d)))
    case BeginTurn =>
      var s' := s.(turns := s.turns + 1);
      if s.flags.upDone && s.flags.downDone then s'.(wd := Returned(CleanEof)) else s'.(wd := Looking(s.now))
    case Look =>
      var s' := s.(flags := Arm(cfg, s.flags, s.wd.now));
      (match Judge(cfg, s'.flags, s.wd.now, Last(s))
       case Close(reason) => Close(s', reason)
       case Sleep(ms) => s'.(wd := Asleep(s.now, s.now + ms)))
    case SeeShutdown => Resolve(s, ShutdownSeen)
    case Receive => Resolve(s.(queue := s.queue[1..], mail := s.mail + 1), Message(s.queue[0].0, s.queue[0].1))
    case SeeClosed => Resolve(s, ChannelClosed)
    case Wake => Resolve(s.(naps := s.naps + 1), Elapsed)
    case Tick(ms) => s.(now := s.now + ms)
    case RequestShutdown => s.(shutdown := true)
  }

  /** A run: where the events lead, if each is possible in its turn. */
  function Run(cfg: Config, net: Streams, s: State, es: seq<Event>): Option<State>
    decreases |es|
  {
    if es == [] then Some(s)
    else if Can(net, s, es[0]) then Run(cfg, net, Do(cfg, net, s, es[0]), es[1..])
    else None
  }

  // ── Invariant ─────────────────────────────────────────────────────────────

  /** Both directions, and the token: it is set by no one but the watchdog as it returns. */
  ghost predicate TasksInv(net: Streams, s: State) {
    && TaskInv(s.up, net.up, s.cancel)
    && TaskInv(s.down, net.down, s.cancel)
    && (s.cancel <==> s.wd.Returned? && s.wd.reason != CleanEof)
  }

  ghost predicate Queued(s: State, d: Dir) {
    (d, Side(s, d).end) in s.queue
  }

  ghost predicate MailOf(s: State, d: Dir) {
    && (DoneFlag(s, d) ==> Reported(Side(s, d)) && Side(s, d).sawEof)
    && (!s.wd.Returned? && Reported(Side(s, d)) ==> DoneFlag(s, d) || Queued(s, d))
  }

  /** Each direction's message is in the channel or accounted for, and never twice. */
  ghost predicate MailInv(s: State) {
    && MailOf(s, Up) && MailOf(s, Down)
    && s.flags.channelOpen
    && (!s.wd.Returned? ==>
          && |s.queue| <= CAPACITY
          && (|s.queue| == 2 ==> s.queue[0].0 != s.queue[1].0)
          && forall i :: 0 <= i < |s.queue| ==> Fresh(s, s.queue[i]))
  }

  ghost predicate Fresh(s: State, m: (Dir, End)) {
    Reported(Side(s, m.0)) && m.1 == Side(s, m.0).end && !DoneFlag(s, m.0)
  }

  /** A reported reason is the true one. */
  ghost predicate ReasonInv(s: State) {
    && (s.wd.Looking? || s.wd.Asleep? ==> !(s.flags.upDone && s.flags.downDone))
    && (s.wd.Returned? ==>
        match s.wd.reason
        case CleanEof => s.flags.upDone && s.flags.downDone
        case Reset =>
          && ((Reported(s.up) && s.up.end == Err) || (Reported(s.down) && s.down.end == Err))
          && !(s.flags.upDone && s.flags.downDone)
        case IdleTimeout => true
        case HalfCloseTimeout => (s.flags.upDone || s.flags.downDone) && s.flags.since.Some?
        case Shutdown => s.shutdown)
  }

  ghost predicate Inv(net: Streams, s: State) {
    TasksInv(net, s) && MailInv(s) && ReasonInv(s)
  }

  lemma InitInv(net: Streams, start: u64)
    ensures Inv(net, Init(start))
  {
    InvStart(net.up, false);
    InvStart(net.down, false);
  }

  lemma StepKeepsInv(cfg: Config, net: Streams, s: State, e: Event)
    requires Inv(net, s) && Can(net, s, e)
    ensures Inv(net, Do(cfg, net, s, e))
  {
    match e {
      case CopyStep(d, a) => CopyStepKeepsInv(cfg, net, s, d, a);
      case BeginTurn =>
      case Look => LookKeepsInv(cfg, net, s);
      case SeeShutdown => CancelKeepsTasks(net, s);
      case Receive => ReceiveKeepsInv(cfg, net, s);
      case SeeClosed => ChannelNeverCloses(net, s);
      case Wake =>
      case Tick(_) =>
      case RequestShutdown =>
    }
  }

  lemma CancelKeepsTasks(net: Streams, s: State)
    requires TasksInv(net, s)
    ensures TaskInv(s.up, net.up, true) && TaskInv(s.down, net.down, true)
  {
    InvCancel(s.up, net.up, s.cancel);
    InvCancel(s.down, net.down, s.cancel);
  }

  lemma LookKeepsInv(cfg: Config, net: Streams, s: State)
    requires Inv(net, s) && Can(net, s, Look)
    ensures Inv(net, Do(cfg, net, s, Look))
  {
    CancelKeepsTasks(net, s);
  }

  lemma CopyStepKeepsInv(cfg: Config, net: Streams, s: State, d: Dir, a: Action)
    requires Inv(net, s) && Can(net, s, CopyStep(d, a))
    ensures Inv(net, Do(cfg, net, s, CopyStep(d, a)))
  {
    var t, t' := Side(s, d), Act(Side(s, d), a, Source(net, d));
    InvStep(t, a, Source(net, d), s.cancel);
    CopyStepReports(t, a, Source(net, d), s.cancel);
    AfterCopyKeepsInv(net, s, d, a, t');
  }

  /** What a direction's action does to its report. */
  lemma CopyStepReports(t: Task, a: Action, source: Bytes, cancel: bool)
    requires Able(t, a, source, cancel)
    ensures var t' := Act(t, a, source);
            && (Reported(t') <==> Reported(t) || a == Sent)
            && (Reported(t) || a == Sent ==> t'.end == t.end && t'.sawEof == t.sawEof)
            && (a == Sent ==> !Reported(t))
  {}

  /** One direction moves on and possibly posts its message; the rest stays. */
  lemma AfterCopyKeepsInv(net: Streams, s: State, d: Dir, a: Action, t': Task)
    requires Inv(net, s) && TaskInv(t', Source(net, d), s.cancel)
    requires Reported(t') <==> Reported(Side(s, d)) || a == Sent
    requires Reported(Side(s, d)) ==> a != Sent && t'.end == Side(s, d).end && t'.sawEof == Side(s, d).sawEof
    requires a == Sent ==> s.wd.Returned? || |s.queue| < CAPACITY
    ensures Inv(net, AfterCopy(s, d, a, t'))
  {
    AfterCopyKeepsMail(net, s, d, a, t');
    AfterCopyKeepsRest(net, s, d, a, t');
  }

  lemma AfterCopyKeepsRest(net: Streams, s: State, d: Dir, a: Action, t': Task)
    requires TasksInv(net, s) && ReasonInv(s) && TaskInv(t', Source(net, d), s.cancel)
    requires Reported(Side(s, d)) ==> Reported(t') && t'.end == Side(s, d).end
    ensures TasksInv(net, AfterCopy(s, d, a, t')) && ReasonInv(AfterCopy(s, d, a, t'))
  {}

  lemma AfterCopyKeepsMail(net: Streams, s: State, d: Dir, a: Action, t': Task)
    requires MailInv(s)
    requires Reported(t') <==> Reported(Side(s, d)) || a == Sent
    requires Reported(Side(s, d)) ==> a != Sent && t'.end == Side(s, d).end && t'.sawEof == Side(s, d).sawEof
    requires a == Sent ==> s.wd.Returned? || |s.queue| < CAPACITY
    ensures MailInv(AfterCopy(s, d, a, t'))
  {
    var s' := AfterCopy(s, d, a, t');
    if a == Sent && !s.wd.Returned? {
      assert s'.queue[|s.queue|] == (d, t'.end);
      assert Queued(s', d);
    }
  }

  lemma ReceiveKeepsInv(cfg: Config, net: Streams, s: State)
    requires Inv(net, s) && Can(net, s, Receive)
    ensures Inv(net, Do(cfg, net, s, Receive))
  {
    CancelKeepsTasks(net, s);
    var (d, end) := s.queue[0];
    assert Fresh(s, s.queue[0]);
    var s' := Do(cfg, net, s, Receive);
    if end == Eof {
      assert Side(s, d).sawEof;
      QueueAfterReceive(s, s', d);
    }
  }

  lemma QueueAfterReceive(s: State, s': State, d: Dir)
    requires MailInv(s) && s.wd.Asleep? && s.queue != [] && d == s.queue[0].0 && Side(s, d).sawEof
    requires s' == s.(queue := s.queue[1..], mail := s.mail + 1, wd := Top,
                      flags := if d == Up then s.flags.(upDone := true) else s.flags.(downDone := true))
    ensures MailInv(s')
  {
    assert Fresh(s, s.queue[0]);
    assert forall i :: 0 <= i < |s'.queue| ==> s'.queue[i] == s.queue[i + 1];
    forall c ensures MailOf(s', c) {
      if c != d && Reported(Side(s, c)) && !DoneFlag(s, c) {
        assert Queued(s, c);
        var i :| 0 <= i < |s.queue| && s.queue[i] == (c, Side(s, c).end);
        assert s'.queue[i - 1] == s.queue[i];
      }
    }
  }

  /** Without a panic in a copy task the watchdog never sees the channel closed: it has
      returned on the second message by then. */
  lemma ChannelNeverCloses(net: Streams, s: State)
    requires Inv(net, s)
    ensures !Can(net, s, SeeClosed)
  {}

  lemma {:induction false} RunKeepsInv(cfg: Config, net: Streams, s: State, es: seq<Event>)
    requires Inv(net, s) && Run(cfg, net, s, es).Some?
    ensures Inv(net, Run(cfg, net, s, es).value)
    decreases |es|
  {
    if es != [] {
      StepKeepsInv(cfg, net, s, es[0]);
      RunKeepsInv(cfg, net, Do(cfg, net, s, es[0]), es[1..]);
    }
  }

  // ── What the close reason promises ────────────────────────────────────────

  /** Reason "eof": both directions truly read end-of-stream, each writer was handed exactly
      all bytes of its reader in order and then shut down, and the token was never set. */
  lemma EofMeansDelivered(cfg: Config, net: Streams, start: u64, es: seq<Event>, s: State)
    requires Run(cfg, net, Init(start), es) == Some(s) && s.wd == Returned(CleanEof)
    ensures s.up.sawEof && s.up.written == net.up && s.up.total == |net.up| && s.up.shut
    ensures s.down.sawEof && s.down.written == net.down && s.down.total == |net.down| && s.down.shut
    ensures !s.cancel
  {
    InitInv(net, start);
    RunKeepsInv(cfg, net, Init(start), es);
  }

  /** A completion message the watchdog acts on was caused by what it says: an `Eof` it
      consumes comes from a direction that read end-of-stream, never from a cancelled one. */
  lemma ConsumedEofIsReal(cfg: Config, net: Streams, start: u64, es: seq<Event>, s: State)
    requires Run(cfg, net, Init(start), es) == Some(s) && Can(net, s, Receive)
    ensures var (d, end) := s.queue[0];
            && (end == Eof ==> Side(s, d).sawEof && Side(s, d).written == Source(net, d))
            && (end == Err ==> Side(s, d).end == Err)
  {
    InitInv(net, start);
    RunKeepsInv(cfg, net, Init(start), es);
    assert Fresh(s, s.queue[0]);
  }

  /** The other reasons are as true as "eof". */
  lemma ReasonIsTrue(cfg: Config, net: Streams, start: u64, es: seq<Event>, s: State)
    requires Run(cfg, net, Init(start), es) == Some(s) && s.wd.Returned?
    ensures s.wd.reason == Reset ==> s.up.end == Err || s.down.end == Err
    ensures s.wd.reason == Shutdown ==> s.shutdown
    ensures s.wd.reason == HalfCloseTimeout ==>
              (s.up.sawEof && s.up.written == net.up) || (s.down.sawEof && s.down.written == net.down)
    ensures s.wd.reason == CleanEof <==> !s.cancel
  {
    InitInv(net, start);
    RunKeepsInv(cfg, net, Init(start), es);
  }

  /** At every moment of every run, each writer holds a prefix of what its reader gave, the
      return value and the byte counter agree, and at most one buffer is unaccounted for. */
  lemma BytesAtAnyMoment(cfg: Config, net: Streams, start: u64, es: seq<Event>, s: State, d: Dir)
    requires Run(cfg, net, Init(start), es) == Some(s)
    ensures var t := Side(s, d);
            && t.written <= t.read <= Source(net, d)
            && t.counter == t.total <= |t.written| <= |t.read| <= t.total + 16384
            && (t.sawEof ==> t.written == Source(net, d) && t.total == |Source(net, d)|)
            && (t.shut ==> t.sawEof || t.end == Err)
  {
    InitInv(net, start);
    RunKeepsInv(cfg, net, Init(start), es);
  }

  /** On its way to shutting the writer, or past it. */
  predicate Shuts(t: Task) {
    t.end == Err && (t.pc.CloseWriter? || (t.shut && Over(t)))
  }

  lemma ShutsOn(cfg: Config, net: Streams, s: State, e: Event, d: Dir)
    requires Can(net, s, e) && Shuts(Side(s, d))
    ensures Shuts(Side(Do(cfg, net, s, e), d))
  {}

  /** A direction whose read fails shuts its writer, and does so before it reports the error. */
  lemma {:induction false} ReadErrorShuts(cfg: Config, net: Streams, s: State, es: seq<Event>, d: Dir)
    requires Shuts(Side(s, d)) && Run(cfg, net, s, es).Some?
    ensures Shuts(Side(Run(cfg, net, s, es).value, d))
    decreases |es|
  {
    if es != [] {
      ShutsOn(cfg, net, s, es[0], d);
      ReadErrorShuts(cfg, net, Do(cfg, net, s, es[0]), es[1..], d);
    }
  }

  lemma AfterReadError(cfg: Config, net: Streams, s: State, d: Dir, es: seq<Event>, s': State)
    requires Can(net, s, CopyStep(d, ReadErr)) && Run(cfg, net, Do(cfg, net, s, CopyStep(d, ReadErr)), es) == Some(s')
    ensures Side(s', d).end == Err && (Over(Side(s', d)) ==> Side(s', d).shut)
  {
    ReadErrorShuts(cfg, net, Do(cfg, net, s, CopyStep(d, ReadErr)), es, d);
  }

  // ── Nothing hangs ─────────────────────────────────────────────────────────

  /** The channel never makes a sender wait. */
  lemma SendNeverBlocks(cfg: Config, net: Streams, start: u64, es: seq<Event>, s: State, d: Dir)
    requires Run(cfg, net, Init(start), es) == Some(s) && Side(s, d).pc.Report?
    ensures Can(net, s, CopyStep(d, Sent))
  {
    InitInv(net, start);
    RunKeepsInv(cfg, net, Init(start), es);
  }

  function JoinRank(s: State): nat {
    Rank(s.up) + Rank(s.down)
  }

  predicate Joined(s: State) {
    s.wd.Returned? && s.up.pc.Done? && s.down.pc.Done?
  }

  /** Once the watchdog has returned, for any reason: both directions are bound to end, one of
      them can move on its own unless both are done, and every move uses up the rank. */
  lemma ReturnedMeansEnding(net: Streams, s: State)
    requires Inv(net, s) && s.wd.Returned?
    ensures Ending(s.up, s.cancel) && Ending(s.down, s.cancel)
    ensures forall d :: !Side(s, d).pc.Done? ==> Can(net, s, CopyStep(d, OwnAction(Side(s, d), s.cancel)))
    ensures JoinRank(s) <= 2 * (4 + BUF_SIZE)
  {
    OwnActionIfNotDone(net, s, Up);
    OwnActionIfNotDone(net, s, Down);
  }

  lemma OwnActionIfNotDone(net: Streams, s: State, d: Dir)
    requires s.wd.Returned?
    ensures !Side(s, d).pc.Done? ==> Can(net, s, CopyStep(d, OwnAction(Side(s, d), s.cancel)))
  {
    if !Side(s, d).pc.Done? {
      OwnActionIsPossible(Side(s, d), Source(net, d), s.cancel);
    }
  }

  function CopySteps(es: seq<Event>): nat {
    if es == [] then 0 else (if es[0].CopyStep? then 1 else 0) + CopySteps(es[1..])
  }

  /** From a state where the watchdog has returned, no run contains more than `JoinRank` steps
      of the two directions, and when neither can move any more both joins are complete. */
  lemma {:induction false} JoinsComplete(cfg: Config, net: Streams, s: State, es: seq<Event>)
    requires Inv(net, s) && s.wd.Returned? && Run(cfg, net, s, es).Some?
    ensures var s' := Run(cfg, net, s, es).value;
            && s'.wd == s.wd
            && CopySteps(es) + JoinRank(s') <= JoinRank(s)
            && ((forall d, a :: !Can(net, s', CopyStep(d, a))) ==> Joined(s'))
    decreases |es|
  {
    if es == [] {
      if forall d, a :: !Can(net, s, CopyStep(d, a)) {
        StuckMeansJoined(net, s);
      }
    } else {
      StepKeepsInv(cfg, net, s, es[0]);
      StepAfterReturn(cfg, net, s, es[0]);
      JoinsComplete(cfg, net, Do(cfg, net, s, es[0]), es[1..]);
    }
  }

  lemma StuckMeansJoined(net: Streams, s: State)
    requires Inv(net, s) && s.wd.Returned? && forall d, a :: !Can(net, s, CopyStep(d, a))
    ensures Joined(s)
  {
    assert Side(s, Up).pc.Done? by {
      OwnActionIfNotDone(net, s, Up);
    }
    assert Side(s, Down).pc.Done? by {
      OwnActionIfNotDone(net, s, Down);
    }
  }

  lemma StepAfterReturn(cfg: Config, net: Streams, s: State, e: Event)
    requires Inv(net, s) && s.wd.Returned? && Can(net, s, e)
    ensures var s' := Do(cfg, net, s, e);
            s'.wd == s.wd && (if e.CopyStep? then 1 else 0) + JoinRank(s') <= JoinRank(s)
  {
    ReturnedMeansEnding(net, s);
    if e.CopyStep? {
      RankDrops(Side(s, e.dir), e.e, Source(net, e.dir), s.cancel);
    }
  }
}
