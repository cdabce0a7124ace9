/** Timing of the watchdog inside the relay: never early, never more than 19 ms late, and
    never a busy loop. */
module RelayTiming {
  import opened Machine
  import opened Copy
  import opened Watchdog
  import opened Relay

  // ── Never early ───────────────────────────────────────────────────────────

  ghost predicate ClockInv(s: State) {
    && s.stamps != [] && Last(s) <= s.now < U64_MAX
    && (s.wd.Looking? ==> s.wd.now <= s.now)
    && (s.wd.Looking? && (s.flags.upDone || s.flags.downDone) ==>
          s.firstReport.Some? && s.firstReport.value <= s.wd.now)
    && (s.wd.Asleep? ==> s.wd.from <= s.now && s.wd.until >= s.wd.from + FLOOR)
    && (s.flags.since.Some? ==>
          && s.firstReport.Some? && s.firstReport.value <= s.flags.since.value <= s.now
          && (s.flags.upDone || s.flags.downDone))
    && (s.firstReport.Some? <==> Reported(s.up) || Reported(s.down))
    && (s.firstReport.Some? ==> s.firstReport.value <= s.now)
  }

  /** The end of the quiet stretch that began with `times[i]`. */
  function QuietUntil(times: seq<u64>, i: nat, now: u64): u64
    requires i < |times|
  {
    if i + 1 < |times| then times[i + 1] else now
  }

  /** After stamp `i`, and not counting the time before `floor`, nothing moved for `ms`. */
  predicate Quiet(s: State, i: nat, floor: int, ms: nat)
    requires i < |s.stamps|
  {
    QuietUntil(s.stamps, i, s.now) >= Max(s.stamps[i], floor) + ms
  }

  ghost predicate WasQuiet(s: State, floor: int, ms: nat) {
    exists i: nat :: i < |s.stamps| && Quiet(s, i, floor, ms)
  }

  ghost predicate QuietInv(cfg: Config, s: State) {
    && (s.wd == Returned(IdleTimeout) ==> cfg.idleSecs > 0 && WasQuiet(s, 0, 1000 * cfg.idleSecs))
    && (s.wd == Returned(HalfCloseTimeout) ==>
          && cfg.halfCloseSecs > 0 && s.flags.since.Some?
          && WasQuiet(s, s.flags.since.value, 1000 * cfg.halfCloseSecs))
  }

  lemma StepKeepsClock(cfg: Config, net: Streams, s: State, e: Event)
    requires Inv(net, s) && ClockInv(s) && Can(net, s, e)
    ensures ClockInv(Do(cfg, net, s, e))
  {
    if e.CopyStep? {
      CopyStepReports(Side(s, e.dir), e.e, Source(net, e.dir), s.cancel);
      AfterCopyKeepsClock(s, e.dir, e.e, Act(Side(s, e.dir), e.e, Source(net, e.dir)));
    } else if e.Look? {
      LookKeepsClock(cfg, net, s);
    }
  }

  lemma AfterCopyKeepsClock(s: State, d: Dir, a: Action, t': Task)
    requires ClockInv(s) && (Reported(t') <==> Reported(Side(s, d)) || a == Sent)
    ensures ClockInv(AfterCopy(s, d, a, t'))
  {}

  lemma LookKeepsClock(cfg: Config, net: Streams, s: State)
    requires Inv(net, s) && ClockInv(s) && Can(net, s, Look)
    ensures ClockInv(Do(cfg, net, s, Look))
  {
    var armed := Arm(cfg, s.flags, s.wd.now);
    VerdictMeaning(cfg, armed, s.wd.now, Last(s));
  }

  lemma StepKeepsQuiet(cfg: Config, net: Streams, s: State, e: Event)
    requires Inv(net, s) && ClockInv(s) && QuietInv(cfg, s) && Can(net, s, e)
    ensures QuietInv(cfg, Do(cfg, net, s, e))
  {
    if e.Look? {
      LookKeepsQuiet(cfg, net, s);
    } else {
      OtherStepIsQuiet(cfg, net, s, e);
      if s.wd.Returned? {
        ReturnedStaysQuiet(cfg, s, Do(cfg, net, s, e));
      }
    }
  }

  /** No step but the look at the deadlines closes for silence; what has returned stays. */
  lemma OtherStepIsQuiet(cfg: Config, net: Streams, s: State, e: Event)
    requires Can(net, s, e) && !e.Look?
    ensures var s' := Do(cfg, net, s, e);
            && (s.wd.Returned? ==> s'.wd == s.wd && s'.flags == s.flags)
            && (!s.wd.Returned? ==> s'.wd != Returned(IdleTimeout) && s'.wd != Returned(HalfCloseTimeout))
            && s'.now >= s.now && (s'.stamps == s.stamps || s'.stamps == s.stamps + [s.now])
  {}

  lemma ReturnedStaysQuiet(cfg: Config, s: State, s': State)
    requires QuietInv(cfg, s) && s.wd.Returned? && s'.wd == s.wd && s'.flags == s.flags && s'.now >= s.now
    requires s'.stamps == s.stamps || s'.stamps == s.stamps + [s.now]
    ensures QuietInv(cfg, s')
  {
    if s.wd.reason == IdleTimeout {
      QuietLasts(s, s', 0, 1000 * cfg.idleSecs);
    } else if s.wd.reason == HalfCloseTimeout {
      QuietLasts(s, s', s.flags.since.value, 1000 * cfg.halfCloseSecs);
    }
  }

  lemma LookKeepsQuiet(cfg: Config, net: Streams, s: State)
    requires ClockInv(s) && Can(net, s, Look)
    ensures QuietInv(cfg, Do(cfg, net, s, Look))
  {
    var s' := Do(cfg, net, s, Look);
    VerdictMeaning(cfg, Arm(cfg, s.flags, s.wd.now), s.wd.now, Last(s));
    var i := |s.stamps| - 1;
    if s'.wd == Returned(IdleTimeout) {
      assert Quiet(s', i, 0, 1000 * cfg.idleSecs);
    } else if s'.wd == Returned(HalfCloseTimeout) {
      assert Quiet(s', i, s'.flags.since.value, 1000 * cfg.halfCloseSecs);
    }
  }

  lemma QuietLasts(s: State, s': State, floor: int, ms: nat)
    requires WasQuiet(s, floor, ms) && s.now <= s'.now
    requires s'.stamps == s.stamps || s'.stamps == s.stamps + [s.now]
    ensures WasQuiet(s', floor, ms)
  {
    var i: nat :| i < |s.stamps| && Quiet(s, i, floor, ms);
    assert Quiet(s', i, floor, ms);
  }

  lemma {:induction false} RunKeepsQuiet(cfg: Config, net: Streams, s: State, es: seq<Event>)
    requires Inv(net, s) && ClockInv(s) && QuietInv(cfg, s) && Run(cfg, net, s, es).Some?
    ensures var s' := Run(cfg, net, s, es).value; Inv(net, s') && ClockInv(s') && QuietInv(cfg, s')
    decreases |es|
  {
    if es != [] {
      StepKeepsInv(cfg, net, s, es[0]);
      StepKeepsClock(cfg, net, s, es[0]);
      StepKeepsQuiet(cfg, net, s, es[0]);
      RunKeepsQuiet(cfg, net, Do(cfg, net, s, es[0]), es[1..]);
    }
  }

  // ── What counts as activity ───────────────────────────────────────────────

  predicate Stamps(e: Event) {
    e.CopyStep? && e.e == StoreStamp
  }

  /** The clock at each moment of a run at which a direction stored the activity stamp. */
  function StampTimes(cfg: Config, net: Streams, s: State, es: seq<Event>): seq<u64>
    requires Run(cfg, net, s, es).Some?
    decreases |es|
  {
    if es == [] then []
    else (if Stamps(es[0]) then [s.now] else []) + StampTimes(cfg, net, Do(cfg, net, s, es[0]), es[1..])
  }

  /** `last_activity` holds what the run's stores put there, and nothing else. */
  lemma {:induction false} StampsAreStored(cfg: Config, net: Streams, s: State, es: seq<Event>)
    requires Run(cfg, net, s, es).Some?
    ensures Run(cfg, net, s, es).value.stamps == s.stamps + StampTimes(cfg, net, s, es)
    decreases |es|
  {
    if es != [] {
      StepStamps(cfg, net, s, es[0]);
      StampsAreStored(cfg, net, Do(cfg, net, s, es[0]), es[1..]);
    }
  }

  lemma StepStamps(cfg: Config, net: Streams, s: State, e: Event)
    requires Can(net, s, e)
    ensures Do(cfg, net, s, e).stamps == s.stamps + if Stamps(e) then [s.now] else []
  {}

  predicate Reports(e: Event) {
    e.CopyStep? && e.e == Sent
  }

  /** The clock at each moment of a run at which a direction reported its end. */
  function ReportTimes(cfg: Config, net: Streams, s: State, es: seq<Event>): seq<u64>
    requires Run(cfg, net, s, es).Some?
    decreases |es|
  {
    if es == [] then []
    else (if Reports(es[0]) then [s.now] else []) + ReportTimes(cfg, net, Do(cfg, net, s, es[0]), es[1..])
  }

  function FirstOf(known: Option<u64>, times: seq<u64>): Option<u64> {
    if known.Some? then known else if times == [] then None else Some(times[0])
  }

  lemma {:induction false} FirstReportIsFirst(cfg: Config, net: Streams, s: State, es: seq<Event>)
    requires Run(cfg, net, s, es).Some?
    ensures Run(cfg, net, s, es).value.firstReport == FirstOf(s.firstReport, ReportTimes(cfg, net, s, es))
    decreases |es|
  {
    if es != [] {
      StepReports(cfg, net, s, es[0]);
      FirstReportIsFirst(cfg, net, Do(cfg, net, s, es[0]), es[1..]);
    }
  }

  lemma StepReports(cfg: Config, net: Streams, s: State, e: Event)
    requires Can(net, s, e)
    ensures Do(cfg, net, s, e).firstReport == FirstOf(s.firstReport, if Reports(e) then [s.now] else [])
  {}

  /** Data moves only after the activity was stamped: between a read of a direction and the
      first byte it hands on lies a store of the stamp. */
  lemma {:induction false} ReadIsStamped(cfg: Config, net: Streams, s: State, es: seq<Event>, d: Dir, i: nat, j: nat)
    requires Run(cfg, net, s, es).Some? && i < j < |es|
    requires es[i].CopyStep? && es[i].dir == d && es[i].e.ReadSome?
    requires es[j].CopyStep? && es[j].dir == d && es[j].e.WriteSome?
    ensures exists m :: i < m < j && es[m] == CopyStep(d, StoreStamp)
    decreases i
  {
    var s1 := Do(cfg, net, s, es[0]);
    if i == 0 {
      StampComesFirst(cfg, net, s1, es[1..], d, j - 1);
      var m :| 0 <= m < j - 1 && es[1..][m] == CopyStep(d, StoreStamp);
      assert es[m + 1] == CopyStep(d, StoreStamp);
    } else {
      ReadIsStamped(cfg, net, s1, es[1..], d, i - 1, j - 1);
      var m :| i - 1 < m < j - 1 && es[1..][m] == CopyStep(d, StoreStamp);
      assert es[m + 1] == CopyStep(d, StoreStamp);
    }
  }

  lemma {:induction false} StampComesFirst(cfg: Config, net: Streams, s: State, es: seq<Event>, d: Dir, j: nat)
    requires Run(cfg, net, s, es).Some? && Side(s, d).pc.Stamp? && j < |es|
    requires es[j].CopyStep? && es[j].dir == d && es[j].e.WriteSome?
    ensures exists m :: 0 <= m < j && es[m] == CopyStep(d, StoreStamp)
    decreases j
  {
    if es[0] == CopyStep(d, StoreStamp) {
      assert j != 0;
    } else {
      StampAwaits(cfg, net, s, es[0], d);
      assert j != 0;
      StampComesFirst(cfg, net, Do(cfg, net, s, es[0]), es[1..], d, j - 1);
      var m :| 0 <= m < j - 1 && es[1..][m] == CopyStep(d, StoreStamp);
      assert es[m + 1] == CopyStep(d, StoreStamp);
    }
  }

  lemma StampAwaits(cfg: Config, net: Streams, s: State, e: Event, d: Dir)
    requires Can(net, s, e) && Side(s, d).pc.Stamp? && e != CopyStep(d, StoreStamp)
    ensures Side(Do(cfg, net, s, e), d).pc.Stamp?
    ensures e.CopyStep? ==> e.dir != d
  {}

  /** After a store at some moment, the stamp is never from before it. */
  lemma {:induction false} StampLasts(cfg: Config, net: Streams, s: State, es: seq<Event>)
    requires Inv(net, s) && ClockInv(s) && Run(cfg, net, s, es).Some?
    ensures Last(Run(cfg, net, s, es).value) >= Last(s)
    decreases |es|
  {
    if es != [] {
      StepStamps(cfg, net, s, es[0]);
      StepKeepsInv(cfg, net, s, es[0]);
      StepKeepsClock(cfg, net, s, es[0]);
      StampLasts(cfg, net, Do(cfg, net, s, es[0]), es[1..]);
    }
  }

  lemma ActivityLasts(
    cfg: Config, net: Streams, start: u64, es: seq<Event>, s: State, e: Event, more: seq<Event>, s': State)
    requires start < U64_MAX && Run(cfg, net, Init(start), es) == Some(s)
    requires Can(net, s, e) && Stamps(e) && Run(cfg, net, Do(cfg, net, s, e), more) == Some(s')
    ensures Last(s') >= s.now
  {
    InitInv(net, start);
    RunKeepsQuiet(cfg, net, Init(start), es);
    StepStamps(cfg, net, s, e);
    StepKeepsInv(cfg, net, s, e);
    StepKeepsClock(cfg, net, s, e);
    StampLasts(cfg, net, Do(cfg, net, s, e), more);
  }

  /** Whatever the schedule: if the moments at which the run stored an activity stamp, from the
      start on, are less than the idle time apart, the connection is never closed as idle; and
      if, from the moment the watchdog knew a direction had finished, no silence between them
      lasts the grace period, it is never closed as half-closed. */
  lemma NeverEarly(cfg: Config, net: Streams, start: u64, es: seq<Event>, s: State)
    requires start < U64_MAX && Run(cfg, net, Init(start), es) == Some(s)
    ensures var times := [start] + StampTimes(cfg, net, Init(start), es);
            && ((forall i: nat :: i < |times| ==> QuietUntil(times, i, s.now) < times[i] + 1000 * cfg.idleSecs) ==>
                  s.wd != Returned(IdleTimeout))
            && (s.flags.since.Some? &&
                (forall i: nat :: i < |times| ==>
                   QuietUntil(times, i, s.now) < Max(times[i], s.flags.since.value) + 1000 * cfg.halfCloseSecs) ==>
                  s.wd != Returned(HalfCloseTimeout))
    ensures s.flags.since.Some? ==>
              var sent := ReportTimes(cfg, net, Init(start), es);
              sent != [] && sent[0] <= s.flags.since.value <= s.now
    ensures cfg.idleSecs == 0 ==> s.wd != Returned(IdleTimeout)
    ensures cfg.halfCloseSecs == 0 ==> s.wd != Returned(HalfCloseTimeout)
  {
    InitInv(net, start);
    RunKeepsQuiet(cfg, net, Init(start), es);
    StampsAreStored(cfg, net, Init(start), es);
    FirstReportIsFirst(cfg, net, Init(start), es);
    if s.wd == Returned(IdleTimeout) {
      var i: nat :| i < |s.stamps| && Quiet(s, i, 0, 1000 * cfg.idleSecs);
    } else if s.wd == Returned(HalfCloseTimeout) {
      var i: nat :| i < |s.stamps| && Quiet(s, i, s.flags.since.value, 1000 * cfg.halfCloseSecs);
    }
  }

  // ── Never late ────────────────────────────────────────────────────────────

  /** An ideal timer and scheduler: time does not pass while the watchdog can run, nor past
      the end of its sleep. Everything else stays arbitrary. */
  predicate OnTime(s: State, e: Event) {
    e.Tick? ==> s.wd.Returned? || (s.wd.Asleep? && s.queue == [] && !s.shutdown && s.now + e.ms <= s.wd.until)
  }

  predicate IdealRun(cfg: Config, net: Streams, s: State, es: seq<Event>)
    decreases |es|
  {
    es != [] ==>
      OnTime(s, es[0]) && Can(net, s, es[0]) && IdealRun(cfg, net, Do(cfg, net, s, es[0]), es[1..])
  }

  /** While the watchdog runs, no deadline is more than 19 ms past. */
  ghost predicate Prompt(cfg: Config, s: State, at: int) {
    && (cfg.idleSecs > 0 ==> at <= IdleDeadline(cfg, Last(s)) + FLOOR - 1)
    && (s.flags.since.Some? ==>
          HalfClosed(cfg, s.flags) && at <= GraceDeadline(cfg, s.flags.since.value, Last(s)) + FLOOR - 1)
  }

  ghost predicate IdealInv(cfg: Config, s: State) {
    !s.wd.Returned? ==>
      && Prompt(cfg, s, s.now)
      && (s.wd.Looking? ==> s.wd.now == s.now)
      && (s.wd.Asleep? ==> s.now <= s.wd.until && Prompt(cfg, s, s.wd.until)
                           && (HalfClosed(cfg, s.flags) ==> s.flags.since.Some?))
      && (s.flags.since.Some? ==> s.flags.since == s.firstReport)
      && (s.firstReport.Some? && s.flags.since.None? && cfg.halfCloseSecs > 0 ==> s.firstReport == Some(s.now))
  }

  lemma StepKeepsIdeal(cfg: Config, net: Streams, s: State, e: Event)
    requires Inv(net, s) && ClockInv(s) && IdealInv(cfg, s) && Can(net, s, e) && OnTime(s, e)
    ensures IdealInv(cfg, Do(cfg, net, s, e))
  {
    match e {
      case CopyStep(d, a) => AfterCopyKeepsIdeal(cfg, s, d, a, Act(Side(s, d), a, Source(net, d)));
      case Look => LookKeepsIdeal(cfg, net, s);
      case Tick(ms) => TickKeepsIdeal(cfg, net, s, ms);
      case _ =>
    }
  }

  lemma AfterCopyKeepsIdeal(cfg: Config, s: State, d: Dir, a: Action, t': Task)
    requires ClockInv(s) && IdealInv(cfg, s)
    ensures IdealInv(cfg, AfterCopy(s, d, a, t'))
  {}

  /** A report whose message has been taken has armed the grace by the time the watchdog
      sleeps. */
  lemma TickKeepsIdeal(cfg: Config, net: Streams, s: State, ms: nat)
    requires Inv(net, s) && ClockInv(s) && IdealInv(cfg, s) && Can(net, s, Tick(ms)) && OnTime(s, Tick(ms))
    ensures IdealInv(cfg, Do(cfg, net, s, Tick(ms)))
  {
    if !s.wd.Returned? && s.firstReport.Some? && cfg.halfCloseSecs > 0 {
      assert !Queued(s, Up) && !Queued(s, Down);
      assert HalfClosed(cfg, s.flags);
    }
  }

  lemma LookKeepsIdeal(cfg: Config, net: Streams, s: State)
    requires Inv(net, s) && ClockInv(s) && IdealInv(cfg, s) && Can(net, s, Look)
    ensures IdealInv(cfg, Do(cfg, net, s, Look))
  {
    VerdictMeaning(cfg, Arm(cfg, s.flags, s.wd.now), s.wd.now, Last(s));
  }

  lemma {:induction false} IdealRunKeeps(cfg: Config, net: Streams, s: State, es: seq<Event>)
    requires Inv(net, s) && ClockInv(s) && IdealInv(cfg, s) && IdealRun(cfg, net, s, es)
    ensures Run(cfg, net, s, es).Some?
    ensures var s' := Run(cfg, net, s, es).value; Inv(net, s') && ClockInv(s') && IdealInv(cfg, s')
    decreases |es|
  {
    if es != [] {
      StepKeepsInv(cfg, net, s, es[0]);
      StepKeepsClock(cfg, net, s, es[0]);
      StepKeepsIdeal(cfg, net, s, es[0]);
      IdealRunKeeps(cfg, net, Do(cfg, net, s, es[0]), es[1..]);
    }
  }

  /** With ideal timers, a connection still open is at most 19 ms past its idle deadline and
      at most 19 ms past the grace after the first finished direction or the last activity,
      whichever is later, however activity and completions came before. */
  lemma NeverLate(cfg: Config, net: Streams, start: u64, es: seq<Event>, s: State)
    requires start < U64_MAX && IdealRun(cfg, net, Init(start), es) && Run(cfg, net, Init(start), es) == Some(s)
    ensures var times, sent := [start] + StampTimes(cfg, net, Init(start), es), ReportTimes(cfg, net, Init(start), es);
            var last := times[|times| - 1];
            && (!s.wd.Returned? && cfg.idleSecs > 0 ==> s.now <= last + 1000 * cfg.idleSecs + 19)
            && (!s.wd.Returned? && cfg.halfCloseSecs > 0 && sent != [] ==>
                  s.now <= Max(sent[0], last) + 1000 * cfg.halfCloseSecs + 19)
  {
    InitInv(net, start);
    IdealRunKeeps(cfg, net, Init(start), es);
    StampsAreStored(cfg, net, Init(start), es);
    FirstReportIsFirst(cfg, net, Init(start), es);
  }

  /** The ideal schedule never gets stuck on a running watchdog: it has a step, or time can
      pass. */
  lemma IdealGoesOn(cfg: Config, net: Streams, start: u64, es: seq<Event>, s: State)
    requires start < U64_MAX && IdealRun(cfg, net, Init(start), es) && Run(cfg, net, Init(start), es) == Some(s)
    requires !s.wd.Returned? && s.now + 1 < U64_MAX
    ensures exists e <- [BeginTurn, Look, SeeShutdown, Receive, Wake, Tick(1)] :: Can(net, s, e) && OnTime(s, e)
  {
    InitInv(net, start);
    IdealRunKeeps(cfg, net, Init(start), es);
    var all := [BeginTurn, Look, SeeShutdown, Receive, Wake, Tick(1)];
    var k := if s.wd.Top? then 0 else if s.wd.Looking? then 1 else if s.shutdown then 2
             else if s.queue != [] then 3 else if s.now >= s.wd.until then 4 else 5;
    assert Can(net, s, all[k]) && OnTime(s, all[k]);
    assert all[k] in all;
  }

  // ── No busy loop ──────────────────────────────────────────────────────────

  function Flag(b: bool): nat {
    if b then 1 else 0
  }

  ghost predicate CountInv(s: State) {
    && s.turns == s.naps + s.mail + Flag(!s.wd.Top? && s.wd != Returned(Reset))
    && s.mail == Flag(s.flags.upDone) + Flag(s.flags.downDone) + Flag(s.wd == Returned(Reset))
  }

  /** The last instant the watchdog is known to have been awake. */
  function Awake(s: State): u64 {
    if s.wd.Asleep? then s.wd.from else s.now
  }

  /** One step: time and wakefulness only advance, and a nap that ends took its 20 ms. */
  ghost predicate Advances(s: State, s': State) {
    && s'.now >= s.now && Awake(s') >= Awake(s)
    && s.naps <= s'.naps <= s.naps + 1
    && (s'.naps > s.naps ==> Awake(s') == s.now >= Awake(s) + FLOOR)
  }

  lemma StepAdvances(cfg: Config, net: Streams, s: State, e: Event)
    requires ClockInv(s) && Can(net, s, e)
    ensures Advances(s, Do(cfg, net, s, e))
  {}

  lemma StepKeepsCount(cfg: Config, net: Streams, s: State, e: Event)
    requires Inv(net, s) && ClockInv(s) && CountInv(s) && Can(net, s, e)
    ensures CountInv(Do(cfg, net, s, e))
  {
    match e {
      case CopyStep(d, a) => AfterCopyKeepsCount(s, d, a, Act(Side(s, d), a, Source(net, d)));
      case Receive => ReceiveKeepsCount(cfg, net, s);
      case SeeClosed => ChannelNeverCloses(net, s);
      case Look => LookKeepsCount(cfg, net, s);
      case _ =>
    }
  }

  lemma AfterCopyKeepsCount(s: State, d: Dir, a: Action, t': Task)
    requires CountInv(s)
    ensures CountInv(AfterCopy(s, d, a, t'))
  {}

  lemma ReceiveKeepsCount(cfg: Config, net: Streams, s: State)
    requires MailInv(s) && ReasonInv(s) && CountInv(s) && Can(net, s, Receive)
    ensures CountInv(Do(cfg, net, s, Receive))
  {
    assert Fresh(s, s.queue[0]);
  }

  lemma LookKeepsCount(cfg: Config, net: Streams, s: State)
    requires Inv(net, s) && ClockInv(s) && CountInv(s) && Can(net, s, Look)
    ensures CountInv(Do(cfg, net, s, Look))
  {
    VerdictMeaning(cfg, Arm(cfg, s.flags, s.wd.now), s.wd.now, Last(s));
  }

  /** Naps after the first take 20 ms each out of the time that passes. */
  lemma {:induction false} NapsTakeTime(cfg: Config, net: Streams, s: State, es: seq<Event>)
    requires Inv(net, s) && ClockInv(s) && CountInv(s) && Run(cfg, net, s, es).Some?
    ensures var s' := Run(cfg, net, s, es).value;
            && CountInv(s') && s'.mail <= 2 && s'.naps >= s.naps && s'.now >= s.now
            && Awake(s') >= Awake(s) + FLOOR * (s'.naps - s.naps)
            && s'.now >= Awake(s')
            && (s'.naps > s.naps ==> Awake(s') >= s.now + FLOOR * (s'.naps - s.naps - 1))
    decreases |es|
  {
    if es != [] {
      var s1 := Do(cfg, net, s, es[0]);
      StepKeepsInv(cfg, net, s, es[0]);
      StepKeepsClock(cfg, net, s, es[0]);
      StepKeepsCount(cfg, net, s, es[0]);
      StepAdvances(cfg, net, s, es[0]);
      NapsTakeTime(cfg, net, s1, es[1..]);
    }
  }

  /** Over any stretch of any run, lasting `T` milliseconds, the watchdog starts at most
      `T / 20 + 3` iterations. */
  lemma NoBusyLoop(cfg: Config, net: Streams, start: u64, before: seq<Event>, s: State, es: seq<Event>, s': State)
    requires start < U64_MAX && Run(cfg, net, Init(start), before) == Some(s) && Run(cfg, net, s, es) == Some(s')
    ensures s'.turns - s.turns <= (s'.now - s.now) / 20 + 3
  {
    InitInv(net, start);
    RunKeepsQuiet(cfg, net, Init(start), before);
    NapsTakeTime(cfg, net, Init(start), before);
    NapsTakeTime(cfg, net, s, es);
    TurnsFit(s, s');
  }

  lemma TurnsFit(s: State, s': State)
    requires CountInv(s) && CountInv(s') && s'.mail <= 2 && s'.naps >= s.naps
    requires s'.naps > s.naps ==> s'.now - s.now >= 20 * (s'.naps - s.naps - 1)
    requires !s.wd.Asleep? ==> s'.now - s.now >= 20 * (s'.naps - s.naps)
    requires s'.now >= s.now
    ensures s'.turns - s.turns <= (s'.now - s.now) / 20 + 3
  {
    var naps, q := s'.naps - s.naps, (s'.now - s.now) / 20;
    assert s'.now - s.now < 20 * q + 20;
    if s.wd.Asleep? {
      assert naps <= q + 1;
      assert s'.turns - s.turns <= naps + s'.mail - s.mail;
    } else {
      assert naps <= q;
    }
  }
}
