/** The watchdog inside a running relay is the loop of `Watchdog.Watch`: the iterations a run
    contains, given to that loop, make it return the run's reason. */
module RelayWatch {
  import opened Machine
  import opened Watchdog
  import opened Relay

  /** The iterations so far, and what the one under way has read. */
  datatype Log = Log(turns: seq<Turn>, now: u64, last: u64)

  const NO_LOG := Log([], 0, 0)

  function Ends(log: Log, w: Watchdog.Wake): Log {
    log.(turns := log.turns + [Turn(log.now, log.last, w)])
  }

  function Note(cfg: Config, net: Streams, s: State, e: Event, log: Log): Log
    requires Can(net, s, e)
  {
    match e
    case BeginTurn => if s.flags.upDone && s.flags.downDone then Ends(log, Elapsed) else log
    case Look =>
      var read := Log(log.turns, s.wd.now, Last(s));
      if Do(cfg, net, s, e).wd.Returned? then Ends(read, Elapsed) else read
    case SeeShutdown => Ends(log, ShutdownSeen)
    case Receive => Ends(log, Message(s.queue[0].0, s.queue[0].1))
    case SeeClosed => Ends(log, ChannelClosed)
    case Wake => Ends(log, Elapsed)
    case _ => log
  }

  /** What the watchdog went through in a run. */
  function Watched(cfg: Config, net: Streams, s: State, es: seq<Event>, log: Log): Log
    requires Relay.Run(cfg, net, s, es).Some?
    decreases |es|
  {
    if es == [] then log
    else Watched(cfg, net, Do(cfg, net, s, es[0]), es[1..], Note(cfg, net, s, es[0], log))
  }

  function Loop(cfg: Config, log: Log): Patrol {
    AfterTurns(cfg, log.turns, |log.turns|)
  }

  lemma {:induction false} PrefixSame(cfg: Config, turns: seq<Turn>, t: Turn, i: nat)
    requires i <= |turns|
    ensures AfterTurns(cfg, turns + [t], i) == AfterTurns(cfg, turns, i)
  {
    if i > 0 {
      PrefixSame(cfg, turns, t, i - 1);
      assert (turns + [t])[i - 1] == turns[i - 1];
    }
  }

  lemma OneMoreTurn(cfg: Config, log: Log, w: Watchdog.Wake)
    requires Loop(cfg, log).reason.None?
    ensures Loop(cfg, Ends(log, w)) == AfterTurn(cfg, Loop(cfg, log).flags, Turn(log.now, log.last, w))
  {
    PrefixSame(cfg, log.turns, Turn(log.now, log.last, w), |log.turns|);
  }

  /** The run's watchdog is where the loop is. */
  predicate InStep(cfg: Config, s: State, log: Log) {
    var p := Loop(cfg, log);
    match s.wd
    case Top => p == Patrol(s.flags, None, false)
    case Looking(_) => p == Patrol(s.flags, None, false) && !(s.flags.upDone && s.flags.downDone)
    case Asleep(_, _) =>
      && p.reason.None? && !(p.flags.upDone && p.flags.downDone)
      && s.flags == Arm(cfg, p.flags, log.now) && Judge(cfg, s.flags, log.now, log.last).Sleep?
    case Returned(reason) => p.reason == Some(reason) && p.cancelled == s.cancel
  }

  lemma StaysInStep(cfg: Config, net: Streams, s: State, e: Event, log: Log)
    requires TasksInv(net, s) && Can(net, s, e) && InStep(cfg, s, log)
    ensures InStep(cfg, Do(cfg, net, s, e), Note(cfg, net, s, e, log))
  {
    if e.BeginTurn? {
      OneMoreTurn(cfg, log, Elapsed);
    } else if e.Look? {
      OneMoreTurn(cfg, Log(log.turns, s.wd.now, Last(s)), Elapsed);
    } else if e.SeeShutdown? {
      OneMoreTurn(cfg, log, ShutdownSeen);
    } else if e.Receive? {
      OneMoreTurn(cfg, log, Message(s.queue[0].0, s.queue[0].1));
    } else if e.SeeClosed? {
      OneMoreTurn(cfg, log, ChannelClosed);
    } else if e.Wake? {
      OneMoreTurn(cfg, log, Elapsed);
    }
  }

  lemma {:induction false} RunStaysInStep(cfg: Config, net: Streams, s: State, es: seq<Event>, log: Log)
    requires Inv(net, s) && InStep(cfg, s, log) && Relay.Run(cfg, net, s, es).Some?
    ensures InStep(cfg, Relay.Run(cfg, net, s, es).value, Watched(cfg, net, s, es, log))
    decreases |es|
  {
    if es != [] {
      StepKeepsInv(cfg, net, s, es[0]);
      StaysInStep(cfg, net, s, es[0], log);
      RunStaysInStep(cfg, net, Do(cfg, net, s, es[0]), es[1..], Note(cfg, net, s, es[0], log));
    }
  }

  /** Whatever a relay's run returns, the loop returns when it meets the iterations of that run. */
  lemma WatchdogIsTheLoop(cfg: Config, net: Streams, start: u64, es: seq<Event>, s: State)
    requires Relay.Run(cfg, net, Init(start), es) == Some(s) && s.wd.Returned?
    ensures var turns := Watched(cfg, net, Init(start), es, NO_LOG).turns;
            && AfterTurns(cfg, turns, |turns|).reason == Some(s.wd.reason)
            && AfterTurns(cfg, turns, |turns|).cancelled == s.cancel
  {
    InitInv(net, start);
    RunStaysInStep(cfg, net, Init(start), es, NO_LOG);
  }
}
