/** One accepted TCP connection: `handle` in `src/proxy/tcp.rs`, from the connect attempt over
    the PROXY header to the relay, with the bytes its upstream socket is given. */
module Connection {
  import opened Machine
  import opened Net
  import opened ProxyProtocol
  import Copy
  import Watchdog
  import Relay

  datatype Setup = Setup(
    proxyProtocol: bool, peer: SocketAddr, local: SocketAddr,
    timers: Watchdog.Config, streams: Relay.Streams)

  datatype Outcome = ConnectFailure | ConnectTimeout | CancelledInSetup

  datatype Phase =
    | Connecting
    | SendingHeader(off: nat)
    | Relaying(relay: Relay.State)
    | Closed(relay: Relay.State)
    | Abandoned(outcome: Outcome)

  /** `wire` is everything handed to the upstream socket so far, in order. */
  datatype State = State(phase: Phase, wire: Bytes)

  const INIT := State(Connecting, [])

  datatype Event =
    | Connected(now: u64) | ConnectFailed | ConnectTimedOut
    | HeaderSome(k: nat, now: u64) | HeaderFailed
    | Cancelled
    | RelayStep(e: Relay.Event)
    | RelayDone

  function HeaderOf(c: Setup): Bytes {
    if c.proxyProtocol then Header(c.peer, c.local) else []
  }

  predicate Can(c: Setup, s: State, e: Event) {
    match e
    case Connected(_) => s.phase.Connecting?
    case ConnectFailed => s.phase.Connecting?
    case ConnectTimedOut => s.phase.Connecting?
    case HeaderSome(k, _) => s.phase.SendingHeader? && 1 <= k && s.phase.off + k <= |HeaderOf(c)|
    case HeaderFailed => s.phase.SendingHeader?
    case Cancelled => s.phase.Connecting? || s.phase.SendingHeader?
    case RelayStep(a) => s.phase.Relaying? && Relay.Can(c.streams, s.phase.relay, a)
    case RelayDone => s.phase.Relaying? && Relay.Joined(s.phase.relay)
  }

  /** The bytes a relay step hands to the upstream socket. */
  function HandedUp(c: Setup, r: Relay.State, e: Relay.Event): Bytes
    requires Relay.Can(c.streams, r, e)
  {
    if e.CopyStep? && e.dir == Watchdog.Up && e.e.WriteSome?
    then r.up.pc.chunk[r.up.pc.off..r.up.pc.off + e.e.k]
    else []
  }

  function Do(c: Setup, s: State, e: Event): State
    requires Can(c, s, e)
  {
    match e
    case Connected(now) =>
      s.(phase := if c.proxyProtocol then SendingHeader(0) else Relaying(Relay.Init(now)))
    case ConnectFailed => s.(phase := Abandoned(ConnectFailure))
    case ConnectTimedOut => s.(phase := Abandoned(ConnectTimeout))
    case HeaderSome(k, now) =>
      var off := s.phase.off;
      State(if off + k < |HeaderOf(c)| then SendingHeader(off + k) else Relaying(Relay.Init(now)),
            s.wire + HeaderOf(c)[off..off + k])
    case HeaderFailed => s.(phase := Abandoned(ConnectFailure))
    case Cancelled => s.(phase := Abandoned(CancelledInSetup))
    case RelayStep(a) =>
      State(Relaying(Relay.Do(c.timers, c.streams, s.phase.relay, a)), s.wire + HandedUp(c, s.phase.relay, a))
    case RelayDone => s.(phase := Closed(s.phase.relay))
  }

  function Run(c: Setup, s: State, es: seq<Event>): Option<State>
    decreases |es|
  {
    if es == [] then Some(s)
    else if Can(c, s, es[0]) then Run(c, Do(c, s, es[0]), es[1..])
    else None
  }

  /** The upstream stream is the whole header and then what the relay wrote, or a part of the
      header. */
  ghost predicate Inv(c: Setup, s: State) {
    match s.phase
    case Connecting => s.wire == []
    case SendingHeader(off) => off < |HeaderOf(c)| && s.wire == HeaderOf(c)[..off]
    case Relaying(r) => s.wire == HeaderOf(c) + r.up.written && Relay.Inv(c.streams, r)
    case Closed(r) => s.wire == HeaderOf(c) + r.up.written && Relay.Inv(c.streams, r) && Relay.Joined(r)
    case Abandoned(_) => s.wire <= HeaderOf(c)
  }

  lemma StepKeepsInv(c: Setup, s: State, e: Event)
    requires Inv(c, s) && Can(c, s, e)
    ensures Inv(c, Do(c, s, e))
  {
    match e {
      case Connected(now) => Relay.InitInv(c.streams, now);
      case HeaderSome(k, now) => HeaderStep(c, s, k, now);
      case RelayStep(a) => RelayKeepsInv(c, s, a);
      case _ =>
    }
  }

  lemma HeaderStep(c: Setup, s: State, k: nat, now: u64)
    requires Inv(c, s) && Can(c, s, HeaderSome(k, now))
    ensures Inv(c, Do(c, s, HeaderSome(k, now)))
  {
    Relay.InitInv(c.streams, now);
    var h, off := HeaderOf(c), s.phase.off;
    assert h[..off] + h[off..off + k] == h[..off + k];
    assert off + k == |h| ==> h[..off + k] == h + [];
  }

  lemma RelayKeepsInv(c: Setup, s: State, a: Relay.Event)
    requires Inv(c, s) && Can(c, s, RelayStep(a))
    ensures Inv(c, Do(c, s, RelayStep(a)))
  {
    var r := s.phase.relay;
    Relay.StepKeepsInv(c.timers, c.streams, r, a);
    WrittenGrows(c, r, a);
    Relayed(c, s, Relay.Do(c.timers, c.streams, r, a), HandedUp(c, r, a));
  }

  lemma Relayed(c: Setup, s: State, r': Relay.State, more: Bytes)
    requires Inv(c, s) && s.phase.Relaying? && Relay.Inv(c.streams, r')
    requires r'.up.written == s.phase.relay.up.written + more
    ensures Inv(c, State(Relaying(r'), s.wire + more))
  {
    assert (HeaderOf(c) + s.phase.relay.up.written) + more == HeaderOf(c) + (s.phase.relay.up.written + more);
  }

  lemma WrittenGrows(c: Setup, r: Relay.State, a: Relay.Event)
    requires Relay.Can(c.streams, r, a)
    ensures Relay.Do(c.timers, c.streams, r, a).up.written == r.up.written + HandedUp(c, r, a)
  {
    if a.CopyStep? {
      Copy.WrittenGrows(Relay.Side(r, a.dir), a.e, Relay.Source(c.streams, a.dir));
    }
  }

  lemma {:induction false} RunKeepsInv(c: Setup, s: State, es: seq<Event>)
    requires Inv(c, s) && Run(c, s, es).Some?
    ensures Inv(c, Run(c, s, es).value)
    decreases |es|
  {
    if es != [] {
      StepKeepsInv(c, s, es[0]);
      RunKeepsInv(c, Do(c, s, es[0]), es[1..]);
    }
  }

  /** With the header switched on, an upstream receiver never misreads the stream: before the
      header is complete it waits; from the first relayed byte on it knows the client's
      canonical address and is left with a prefix of exactly the client's own bytes, which is
      all of them once the connection closed with "eof". */
  lemma BackendLearnsClient(c: Setup, es: seq<Event>, s: State)
    requires c.proxyProtocol && Run(c, INIT, es) == Some(s)
    ensures s.phase.SendingHeader? ==> Receive(s.wire) == NeedMore
    ensures s.phase.Relaying? || s.phase.Closed? ==>
              var got := Receive(s.wire);
              && got.Accepted? && got.announced == Announcement(c.peer, c.local)
              && got.rest <= c.streams.up
              && (s.phase.Closed? && s.phase.relay.wd == Relay.Returned(Watchdog.CleanEof) ==> got.rest == c.streams.up)
  {
    RunKeepsInv(c, INIT, es);
    if s.phase.SendingHeader? {
      NoEarlyDecision(c.peer, c.local, s.phase.off);
    } else if s.phase.Relaying? || s.phase.Closed? {
      ReceiverReadsBack(c.peer, c.local, s.phase.relay.up.written);
    }
  }

  /** With the header switched off, the upstream socket is given nothing but the client's
      bytes. */
  lemma NothingButTheClient(c: Setup, es: seq<Event>, s: State)
    requires !c.proxyProtocol && Run(c, INIT, es) == Some(s)
    ensures s.wire <= c.streams.up
    ensures s.phase.Closed? && s.phase.relay.wd == Relay.Returned(Watchdog.CleanEof) ==> s.wire == c.streams.up
  {
    RunKeepsInv(c, INIT, es);
  }
}
