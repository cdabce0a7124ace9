/** The per-connection watchdog of `src/proxy/tcp.rs`: idle timeout (L3), half-close grace
    (L4), completion messages and shutdown. */
module Watchdog {
  import opened Machine
  import opened Copy

  /** Longest sleep between two looks at the deadlines. */
  const TICK: u64 := 5000
  /** Shortest sleep. */
  const FLOOR: u64 := 20

  datatype Dir = Up | Down

  /** The label a closed connection is counted and logged under. */
  datatype Reason = CleanEof | Reset | IdleTimeout | HalfCloseTimeout | Shutdown

  datatype Config = Config(idleSecs: u64, halfCloseSecs: u64)

  /** The loop's local variables. */
  datatype Flags = Flags(upDone: bool, downDone: bool, channelOpen: bool, since: Option<u64>)

  const FRESH := Flags(false, false, true, None)

  datatype Verdict = Close(reason: Reason) | Sleep(ms: u64)

  predicate HalfClosed(cfg: Config, f: Flags) {
    cfg.halfCloseSecs > 0 && (f.upDone || f.downDone)
  }

  /** `half_close_since.get_or_insert(now)`, when the grace check is reached. */
  function Arm(cfg: Config, f: Flags, now: u64): Flags {
    if HalfClosed(cfg, f) && f.since.None? then f.(since := Some(now)) else f
  }

  function IdleLeft(cfg: Config, now: u64, last: u64): u64 {
    SatSub(SatAdd(last, Millis(cfg.idleSecs)), now)
  }

  function GraceLeft(cfg: Config, since: u64, now: u64, last: u64): u64 {
    SatSub(SatAdd(if since >= last then since else last, Millis(cfg.halfCloseSecs)), now)
  }

  /** The deadline checks of one iteration; `f` is already armed. The idle check comes first
      and an expired one returns before the grace is looked at. */
  function Judge(cfg: Config, f: Flags, now: u64, last: u64): Verdict
    requires HalfClosed(cfg, f) ==> f.since.Some?
  {
    if cfg.idleSecs > 0 && IdleLeft(cfg, now, last) == 0 then Close(IdleTimeout)
    else
      var wake := if cfg.idleSecs > 0 then Min(TICK, IdleLeft(cfg, now, last)) else TICK;
      if HalfClosed(cfg, f) then
        var left := GraceLeft(cfg, f.since.value, now, last);
        if left == 0 then Close(HalfCloseTimeout) else Sleep(Max(Min(wake, left), FLOOR))
      else Sleep(Max(wake, FLOOR))
  }

  /** What the `select!` of one iteration resolved to. */
  datatype Wake = ShutdownSeen | Message(dir: Dir, end: End) | ChannelClosed | Elapsed

  function React(f: Flags, w: Wake): (Flags, Option<Reason>) {
    match w
    case ShutdownSeen => (f, Some(Shutdown))
    case Message(_, Err) => (f, Some(Reset))
    case Message(Up, Eof) => (f.(upDone := true), None)
    case Message(Down, Eof) => (f.(downDone := true), None)
    case ChannelClosed => (f.(channelOpen := false), None)
    case Elapsed => (f, None)
  }

  // ── The loop ──────────────────────────────────────────────────────────────

  /** What one iteration finds: the clock, the activity stamp, and how its sleep ends. */
  datatype Turn = Turn(now: u64, last: u64, wake: Wake)

  /** The loop so far: its variables, and the reason once it returned. Only a clean end
      leaves the cancel token alone. */
  datatype Patrol = Patrol(flags: Flags, reason: Option<Reason>, cancelled: bool)

  function AfterTurn(cfg: Config, f: Flags, t: Turn): Patrol {
    if f.upDone && f.downDone then Patrol(f, Some(CleanEof), false)
    else
      var armed := Arm(cfg, f, t.now);
      match Judge(cfg, armed, t.now, t.last)
      case Close(reason) => Patrol(armed, Some(reason), true)
      case Sleep(_) => var (f', reason) := React(armed, t.wake); Patrol(f', reason, reason.Some?)
  }

  function AfterTurns(cfg: Config, turns: seq<Turn>, i: nat): Patrol
    requires i <= |turns|
  {
    if i == 0 then Patrol(FRESH, None, false)
    else
      var p := AfterTurns(cfg, turns, i - 1);
      if p.reason.Some? then p else AfterTurn(cfg, p.flags, turns[i - 1])
  }

  /** The sleeps asked for so far, one for each iteration that got to its `select!`. */
  function Naps(cfg: Config, turns: seq<Turn>, i: nat): seq<u64>
    requires i <= |turns|
  {
    if i == 0 then []
    else
      var p, before := AfterTurns(cfg, turns, i - 1), Naps(cfg, turns, i - 1);
      if p.reason.Some? || (p.flags.upDone && p.flags.downDone) then before
      else
        var t := turns[i - 1];
        match Judge(cfg, Arm(cfg, p.flags, t.now), t.now, t.last)
        case Close(_) => before
        case Sleep(ms) => before + [ms]
  }

  /** The two deadline checks of an iteration. */
  method Deadlines(cfg: Config, f: Flags, now: u64, last: u64) returns (v: Verdict, since: Option<u64>)
    ensures v == Judge(cfg, Arm(cfg, f, now), now, last)
    ensures v.Sleep? ==> since == Arm(cfg, f, now).since
    ensures now < U64_MAX ==>
              (v == Close(IdleTimeout) <==> cfg.idleSecs > 0 && now >= last + 1000 * cfg.idleSecs)
    ensures now < U64_MAX && v != Close(IdleTimeout) ==>
              (v == Close(HalfCloseTimeout) <==>
               && cfg.halfCloseSecs > 0 && (f.upDone || f.downDone)
               && now >= Max(if f.since.Some? then f.since.value else now, last) + 1000 * cfg.halfCloseSecs)
  {
    if now < U64_MAX {
      VerdictMeaning(cfg, Arm(cfg, f, now), now, last);
    }
    since := f.since;
    var wake: u64 := TICK;
    if cfg.idleSecs > 0 {
      var left := SatSub(SatAdd(last, Millis(cfg.idleSecs)), now);
      if left == 0 {
        return Close(IdleTimeout), since;
      }
      wake := Min(wake, left);
    }
    if cfg.halfCloseSecs > 0 && (f.upDone || f.downDone) {
      if since.None? {
        since := Some(now);
      }
      var start := if since.value >= last then since.value else last;
      var left := SatSub(SatAdd(start, Millis(cfg.halfCloseSecs)), now);
      if left == 0 {
        return Close(HalfCloseTimeout), since;
      }
      wake := Min(wake, left);
    }
    v := Sleep(Max(wake, FLOOR));
  }

  /** `watchdog` itself, run against the given iterations: its verdict, `None` if they all ended
      with the loop still going, and the sleeps it asked for. */
  method Watch(cfg: Config, turns: seq<Turn>) returns (reason: Option<Reason>, cancelled: bool, naps: seq<u64>)
    ensures reason == AfterTurns(cfg, turns, |turns|).reason
    ensures cancelled == AfterTurns(cfg, turns, |turns|).cancelled
    ensures cancelled <==> reason.Some? && reason.value != CleanEof
    ensures naps == Naps(cfg, turns, |turns|)
  {
    var upDone, downDone, channelOpen := false, false, true;
    var since: Option<u64> := None;
    reason, cancelled, naps := None, false, [];
    var i := 0;
    while i < |turns|
      invariant 0 <= i <= |turns|
      invariant reason.None? && !cancelled && naps == Naps(cfg, turns, i)
      invariant AfterTurns(cfg, turns, i) == Patrol(Flags(upDone, downDone, channelOpen, since), None, false)
    {
      StaysReturned(cfg, turns, i + 1, |turns|);
      if upDone && downDone {
        return Some(CleanEof), false, naps;
      }
      var v, armed := Deadlines(cfg, Flags(upDone, downDone, channelOpen, since), turns[i].now, turns[i].last);
      if v.Close? {
        return Some(v.reason), true, naps;
      }
      since, naps := armed, naps + [v.ms];
      match turns[i].wake {
        case ShutdownSeen =>
          return Some(Shutdown), true, naps;
        case Message(_, Err) =>
          return Some(Reset), true, naps;
        case Message(Up, Eof) =>
          upDone := true;
        case Message(Down, Eof) =>
          downDone := true;
        case ChannelClosed =>
          channelOpen := false;
        case Elapsed =>
      }
      i := i + 1;
    }
  }

  /** Nothing happens after the loop returned. */
  lemma {:induction false} StaysReturned(cfg: Config, turns: seq<Turn>, i: nat, n: nat)
    requires i <= n <= |turns|
    ensures AfterTurns(cfg, turns, i).reason.Some? ==>
              AfterTurns(cfg, turns, n) == AfterTurns(cfg, turns, i) && Naps(cfg, turns, n) == Naps(cfg, turns, i)
  {
    if i < n {
      StaysReturned(cfg, turns, i, n - 1);
    }
  }

  // ── What a verdict means ──────────────────────────────────────────────────

  /** The instant the connection is due to be closed for silence, in exact arithmetic. */
  function IdleDeadline(cfg: Config, last: u64): int {
    last + 1000 * cfg.idleSecs
  }

  function GraceDeadline(cfg: Config, since: u64, last: u64): int {
    Max(since, last) + 1000 * cfg.halfCloseSecs
  }

  /** The deadline that comes first. */
  function NearestDeadline(cfg: Config, f: Flags, last: u64): int
    requires HalfClosed(cfg, f) ==> f.since.Some?
    requires cfg.idleSecs > 0 || HalfClosed(cfg, f)
  {
    if !HalfClosed(cfg, f) then IdleDeadline(cfg, last)
    else if cfg.idleSecs == 0 then GraceDeadline(cfg, f.since.value, last)
    else Min(IdleDeadline(cfg, last), GraceDeadline(cfg, f.since.value, last))
  }

  /** A verdict closes exactly at or after a deadline, the idle one first. A sleep lasts until
      the nearest deadline, but at least 20 ms and at most five seconds (the clock being five
      seconds short of its ceiling), so it ends at most 19 ms after every one of them. */
  lemma VerdictMeaning(cfg: Config, f: Flags, now: u64, last: u64)
    requires HalfClosed(cfg, f) ==> f.since.Some?
    requires now < U64_MAX
    ensures var v := Judge(cfg, f, now, last);
            && (v == Close(IdleTimeout) <==> cfg.idleSecs > 0 && now >= IdleDeadline(cfg, last))
            && (v == Close(HalfCloseTimeout) <==>
                && !(cfg.idleSecs > 0 && now >= IdleDeadline(cfg, last))
                && HalfClosed(cfg, f) && now >= GraceDeadline(cfg, f.since.value, last))
            && (v.Sleep? ==>
                && 20 <= v.ms <= 5000
                && (cfg.idleSecs > 0 ==> now + v.ms <= IdleDeadline(cfg, last) + 19)
                && (HalfClosed(cfg, f) ==> now + v.ms <= GraceDeadline(cfg, f.since.value, last) + 19))
            && (v.Sleep? && now + 5000 <= U64_MAX ==>
                v.ms == if cfg.idleSecs > 0 || HalfClosed(cfg, f)
                        then Max(20, Min(5000, NearestDeadline(cfg, f, last) - now)) else 5000)
            && (v.Close? ==> v.reason == IdleTimeout || v.reason == HalfCloseTimeout)
  {
    TimeLeft(last, cfg.idleSecs, now);
    if HalfClosed(cfg, f) {
      TimeLeft(if f.since.value >= last then f.since.value else last, cfg.halfCloseSecs, now);
    }
  }
}
