/** The way of a client's datagrams to the upstream, within one UDP session: the bounded queue
    filled by `try_send` and the relay task that empties it (`src/proxy/udp.rs`). */
module Datagrams {
  import opened Machine

  type Packet = Bytes

  const CAPACITY: nat := 256

  /** `offered` logs each datagram offered to the queue, in order, and whether it was taken
      (`UdpFlow` says which those are). `out` is being sent. `hungUp`: the session was dropped,
      and with it the only sender. */
  datatype State = State(
    offered: seq<(Packet, bool)>,
    queue: seq<Packet>, out: Option<Packet>, sent: seq<Packet>, bytes: nat,
    cancelled: bool, hungUp: bool, ended: bool)

  const FRESH := State([], [], None, [], 0, false, false, false)

  datatype Event =
    | Offer(d: Packet)                 // try_send, by the set-up task or the listener
    | Receive                          // the relay task takes the oldest datagram
    | SendOk(n: nat) | SendErr
    | Stop                             // the relay task sees a cancelled token
    | Drained                          // it sees an empty queue nobody can fill
    | HangUp
    | Cancel                           // by the partner task, the cleanup task or a shutdown

  predicate Can(s: State, e: Event) {
    match e
    case Offer(_) => !s.hungUp
    case Receive => !s.ended && s.out.None? && s.queue != []
    case SendOk(_) => !s.ended && s.out.Some?
    case SendErr => !s.ended && s.out.Some?
    case Stop => !s.ended && s.out.None? && s.cancelled
    case Drained => !s.ended && s.out.None? && s.hungUp && s.queue == []
    case HangUp => true
    case Cancel => true
  }

  /** The queue takes a datagram if it has room and the relay task still holds its end. */
  predicate Takes(s: State) {
    !s.ended && |s.queue| < CAPACITY
  }

  function Do(s: State, e: Event): State
    requires Can(s, e)
  {
    match e
    case Offer(d) =>
      s.(offered := s.offered + [(d, Takes(s))], queue := if Takes(s) then s.queue + [d] else s.queue)
    case Receive => s.(out := Some(s.queue[0]), queue := s.queue[1..])
    case SendOk(n) => s.(out := None, sent := s.sent + [s.out.value], bytes := s.bytes + n)
    case SendErr => s.(out := None, queue := [], cancelled := true, ended := true)
    case Stop => s.(queue := [], ended := true)
    case Drained => s.(cancelled := true, ended := true)
    case HangUp => s.(hungUp := true)
    case Cancel => s.(cancelled := true)
  }

  function Run(s: State, es: seq<Event>): Option<State>
    decreases |es|
  {
    if es == [] then Some(s)
    else if Can(s, es[0]) then Run(Do(s, es[0]), es[1..])
    else None
  }

  lemma {:induction false} RunJoin(s: State, xs: seq<Event>, m: State, ys: seq<Event>)
    requires Run(s, xs) == Some(m)
    ensures Run(s, xs + ys) == Run(m, ys)
    decreases |xs|
  {
    if xs == [] {
      assert xs + ys == ys;
    } else {
      assert (xs + ys)[1..] == xs[1..] + ys;
      RunJoin(Do(s, xs[0]), xs[1..], m, ys);
    }
  }

  /** The datagrams that were taken, in order. */
  function Accepted(log: seq<(Packet, bool)>): seq<Packet> {
    if log == [] then []
    else
      var (d, taken) := log[|log| - 1];
      Accepted(log[..|log| - 1]) + if taken then [d] else []
  }

  function InFlight(s: State): seq<Packet> {
    if s.out.Some? then [s.out.value] else []
  }

  /** Nothing is lost, doubled or reordered while the task runs; when it has ended, what it
      sent without error is still where the accepted ones began. */
  ghost predicate Inv(s: State) {
    && |s.queue| <= CAPACITY
    && s.sent <= Accepted(s.offered)
    && (!s.ended ==> Accepted(s.offered) == s.sent + InFlight(s) + s.queue)
    && (s.ended ==> s.cancelled && s.queue == [] && s.out.None?)
    && (s.offered == [] ==> s.sent == [] && s.out.None?)
  }

  lemma StepKeepsInv(s: State, e: Event)
    requires Inv(s) && Can(s, e)
    ensures Inv(Do(s, e))
  {
    var s' := Do(s, e);
    match e {
      case Offer(d) =>
        assert s'.offered[..|s.offered|] == s.offered;
        OfferKeepsInv(s, d);
      case Receive =>
        assert s.queue == [s.queue[0]] + s.queue[1..];
      case SendOk(_) =>
        assert s'.sent + s.queue == s.sent + InFlight(s) + s.queue;
      case _ =>
    }
  }

  lemma OfferKeepsInv(s: State, d: Packet)
    requires Inv(s) && !s.hungUp
    ensures Inv(Do(s, Offer(d)))
  {
    var s' := Do(s, Offer(d));
    assert s'.offered[..|s.offered|] == s.offered;
    assert Accepted(s'.offered) == Accepted(s.offered) + if Takes(s) then [d] else [];
    if !s.ended && Takes(s) {
      assert s.sent + InFlight(s) + s'.queue == (s.sent + InFlight(s) + s.queue) + [d];
    }
  }

  lemma {:induction false} RunKeepsInv(s: State, es: seq<Event>)
    requires Inv(s) && Run(s, es).Some?
    ensures Inv(Run(s, es).value)
    decreases |es|
  {
    if es != [] {
      StepKeepsInv(s, es[0]);
      RunKeepsInv(Do(s, es[0]), es[1..]);
    }
  }

  // ── Order ─────────────────────────────────────────────────────────────────

  /** Where in the log the accepted datagrams stand. */
  function Places(log: seq<(Packet, bool)>): seq<nat> {
    if log == [] then []
    else Places(log[..|log| - 1]) + if log[|log| - 1].1 then [|log| - 1] else []
  }

  lemma {:induction false} PlacesAreInOrder(log: seq<(Packet, bool)>)
    ensures |Places(log)| == |Accepted(log)|
    ensures forall i :: 0 <= i < |Places(log)| ==>
              Places(log)[i] < |log| && log[Places(log)[i]] == (Accepted(log)[i], true)
    ensures forall i, j :: 0 <= i < j < |Places(log)| ==> Places(log)[i] < Places(log)[j]
  {
    if log != [] {
      PlacesAreInOrder(log[..|log| - 1]);
    }
  }

  /** If the first offer was taken, it is the first accepted. */
  lemma {:induction false} FirstPlace(log: seq<(Packet, bool)>)
    requires log != [] && log[0].1
    ensures Places(log) != [] && Places(log)[0] == 0
  {
    if |log| > 1 {
      FirstPlace(log[..|log| - 1]);
    }
  }

  /** In every state of every run: the datagrams sent upstream without error are the first
      accepted ones, each once and in the order of the offers; the queue holds at most 256; and while the
      relay task runs, whatever was accepted was sent, is being sent or is queued. */
  lemma SentInOfferOrder(es: seq<Event>, s: State)
    requires Run(FRESH, es) == Some(s)
    ensures |s.sent| <= |Places(s.offered)| && |s.queue| <= 256
    ensures forall i :: 0 <= i < |s.sent| ==>
              Places(s.offered)[i] < |s.offered| && s.offered[Places(s.offered)[i]] == (s.sent[i], true)
    ensures forall i, j :: 0 <= i < j < |Places(s.offered)| ==> Places(s.offered)[i] < Places(s.offered)[j]
    ensures !s.ended ==> Accepted(s.offered) == s.sent + InFlight(s) + s.queue
  {
    RunKeepsInv(FRESH, es);
    PlacesAreInOrder(s.offered);
  }

  /** The bytes the sends of a run returned, added up. */
  function Sizes(es: seq<Event>): nat {
    if es == [] then 0 else (if es[0].SendOk? then es[0].n else 0) + Sizes(es[1..])
  }

  lemma {:induction false} BytesAreSizes(s: State, es: seq<Event>)
    requires Run(s, es).Some?
    ensures Run(s, es).value.bytes == s.bytes + Sizes(es)
    decreases |es|
  {
    if es != [] {
      BytesAreSizes(Do(s, es[0]), es[1..]);
    }
  }

  /** A datagram is taken exactly if fewer than 256 wait and the task still runs. */
  lemma TakenIffRoom(s: State, d: Packet)
    requires !s.hungUp
    ensures var s' := Do(s, Offer(d));
            if !s.ended && |s.queue| < 256 then
              s'.queue == s.queue + [d] && Accepted(s'.offered) == Accepted(s.offered) + [d]
            else s'.queue == s.queue && Accepted(s'.offered) == Accepted(s.offered)
  {
    assert Do(s, Offer(d)).offered[..|s.offered|] == s.offered;
  }

  /** A session that was dropped, say because its place was taken, still gets through all it
      accepted, unless it is cancelled or fails. */
  lemma DrainedMeansAllSent(es: seq<Event>, s: State)
    requires Run(FRESH, es) == Some(s) && Can(s, Drained)
    ensures s.sent == Accepted(s.offered)
  {
    RunKeepsInv(FRESH, es);
  }

  lemma {:induction false} LogGrows(s: State, es: seq<Event>)
    requires Run(s, es).Some?
    ensures s.offered <= Run(s, es).value.offered
    decreases |es|
  {
    if es != [] {
      assert s.offered <= Do(s, es[0]).offered;
      LogGrows(Do(s, es[0]), es[1..]);
    }
  }

  lemma {:induction false} AcceptedGrows(log: seq<(Packet, bool)>, more: seq<(Packet, bool)>)
    requires log <= more
    ensures Accepted(log) <= Accepted(more)
  {
    if log != more {
      AcceptedGrows(log, more[..|more| - 1]);
    } else {
      assert log == more;
    }
  }

  lemma {:induction false} EndedForGood(s: State, es: seq<Event>)
    requires s.ended && Run(s, es).Some?
    ensures var s' := Run(s, es).value; s'.ended && s'.sent == s.sent && (s.cancelled ==> s'.cancelled)
    ensures Accepted(Run(s, es).value.offered) == Accepted(s.offered)
    decreases |es|
  {
    if es != [] {
      var s1 := Do(s, es[0]);
      if es[0].Offer? {
        assert s1.offered[..|s.offered|] == s.offered;
      }
      EndedForGood(s1, es[1..]);
    }
  }

  /** A send error ends the task, as a cancelled token and an abandoned queue do: from then on
      the session is cancelled, nothing more is sent and no datagram is taken. */
  lemma EndIsFinal(s: State, e: Event, later: seq<Event>, s': State)
    requires Inv(s) && Can(s, e) && (e.SendErr? || e.Stop? || e.Drained?)
    requires Run(Do(s, e), later) == Some(s')
    ensures s'.ended && s'.cancelled && s'.sent == s.sent && Accepted(s'.offered) == Accepted(s.offered)
  {
    EndedForGood(Do(s, e), later);
  }

  /** The first datagram offered is taken exactly if the relay task still runs, never for lack of room;
      taken, it is the first to be sent; not taken, nothing ever is. */
  lemma FirstOfferFirst(es: seq<Event>, s: State, d: Packet, later: seq<Event>, s': State)
    requires Run(FRESH, es) == Some(s) && s.offered == [] && !s.hungUp
    requires Run(Do(s, Offer(d)), later) == Some(s')
    ensures s'.offered != [] && s'.offered[0] == (d, !s.ended)
    ensures if s.ended then s'.sent == [] else s'.sent != [] ==> s'.sent[0] == d
  {
    RunKeepsInv(FRESH, es);
    var s1 := Do(s, Offer(d));
    StepKeepsInv(s, Offer(d));
    OpeningIsTaken(s, d);
    LogGrows(s1, later);
    if s.ended {
      EndedForGood(s1, later);
    } else {
      RunKeepsInv(s1, later);
      AcceptedGrows(s1.offered, s'.offered);
    }
  }

  lemma OpeningIsTaken(s: State, d: Packet)
    requires Inv(s) && s.offered == [] && !s.hungUp
    ensures Do(s, Offer(d)).offered == [(d, !s.ended)]
    ensures Accepted([(d, !s.ended)]) == if s.ended then [] else [d]
  {
    assert Accepted(s.offered) == [];
    var log := [(d, !s.ended)];
    assert log[..0] == [];
    assert Accepted(log) == Accepted(log[..0]) + if s.ended then [] else [d];
  }

  // ── The task itself ───────────────────────────────────────────────────────

  /** One turn of the relay task as the world presents it: what the listener offers before the
      task looks, whether a token is cancelled or the session dropped by then, what is offered
      during the send, and how the send ends. */
  datatype Turn =
    Turn(before: seq<Packet>, cancel: bool, hangUp: bool, during: seq<Packet>, result: Option<nat>)

  function OfferAll(s: State, ds: seq<Packet>): State
    decreases |ds|
  {
    if ds == [] || s.hungUp then s else OfferAll(Do(s, Offer(ds[0])), ds[1..])
  }

  /** The tokens and the sender as the task finds them. */
  function Signalled(s: State, t: Turn): State {
    s.(cancelled := s.cancelled || t.cancel, hungUp := s.hungUp || t.hangUp)
  }

  function Ready(s: State, t: Turn): State {
    Signalled(OfferAll(s, t.before), t)
  }

  /** The state after one turn; an empty queue keeps the task waiting. */
  function AfterTurn(s: State, t: Turn): (r: State)
    requires !s.ended && s.out.None?
    ensures !r.ended ==> r.out.None?
  {
    var s1 := Ready(s, t);
    OfferKeepsTask(s, t.before);
    if s1.cancelled then Do(s1, Stop)
    else if s1.queue == [] then if s1.hungUp then Do(s1, Drained) else s1
    else
      OfferKeepsTask(Do(s1, Receive), t.during);
      var s2 := OfferAll(Do(s1, Receive), t.during);
      if t.result.Some? then Do(s2, SendOk(t.result.value)) else Do(s2, SendErr)
  }

  lemma {:induction false} OfferKeepsTask(s: State, ds: seq<Packet>)
    ensures var s' := OfferAll(s, ds);
            s'.ended == s.ended && s'.out == s.out && s'.cancelled == s.cancelled && s'.hungUp == s.hungUp
    decreases |ds|
  {
    if ds != [] && !s.hungUp {
      OfferKeepsTask(Do(s, Offer(ds[0])), ds[1..]);
    }
  }

  function AfterTurns(s: State, turns: seq<Turn>): State
    requires !s.ended && s.out.None?
    decreases |turns|
  {
    if turns == [] then s
    else
      var s1 := AfterTurn(s, turns[0]);
      if s1.ended then s1 else AfterTurns(s1, turns[1..])
  }

  lemma {:induction false} OffersAreARun(s: State, ds: seq<Packet>) returns (es: seq<Event>)
    ensures Run(s, es) == Some(OfferAll(s, ds))
    decreases |ds|
  {
    if ds == [] || s.hungUp {
      es := [];
    } else {
      var rest := OffersAreARun(Do(s, Offer(ds[0])), ds[1..]);
      es := [Offer(ds[0])] + rest;
      assert es[1..] == rest;
    }
  }

  lemma SignalsAreARun(s: State, t: Turn) returns (es: seq<Event>)
    ensures Run(s, es) == Some(Signalled(s, t))
  {
    var s1 := if t.cancel then Do(s, Cancel) else s;
    var a := if t.cancel then [Cancel] else [];
    var b := if t.hangUp then [HangUp] else [];
    if t.cancel {
      RunOne(s, Cancel);
    }
    if t.hangUp {
      RunOne(s1, HangUp);
    }
    RunJoin(s, a, s1, b);
    es := a + b;
  }

  lemma RunOne(s: State, e: Event)
    requires Can(s, e)
    ensures Run(s, [e]) == Some(Do(s, e))
  {
    assert Run(Do(s, e), [e][1..]) == Some(Do(s, e));
  }

  lemma TurnIsARun(s: State, t: Turn) returns (es: seq<Event>)
    requires !s.ended && s.out.None?
    ensures Run(s, es) == Some(AfterTurn(s, t))
  {
    var s1 := Ready(s, t);
    var offers := OffersAreARun(s, t.before);
    var signals := SignalsAreARun(OfferAll(s, t.before), t);
    OfferKeepsTask(s, t.before);
    RunJoin(s, offers, OfferAll(s, t.before), signals);
    var last := [];
    if s1.cancelled {
      RunOne(s1, Stop);
      last := [Stop];
    } else if s1.queue != [] {
      last := SendIsARun(s1, t);
    } else if s1.hungUp {
      RunOne(s1, Drained);
      last := [Drained];
    }
    RunJoin(s, offers + signals, s1, last);
    es := offers + signals + last;
  }

  lemma SendIsARun(s: State, t: Turn) returns (es: seq<Event>)
    requires Can(s, Receive)
    ensures var s2 := OfferAll(Do(s, Receive), t.during);
            && !s2.ended && s2.out.Some?
            && Run(s, es) == Some(if t.result.Some? then Do(s2, SendOk(t.result.value)) else Do(s2, SendErr))
  {
    var s1 := Do(s, Receive);
    var s2 := OfferAll(s1, t.during);
    RunOne(s, Receive);
    var offers := OffersAreARun(s1, t.during);
    OfferKeepsTask(s1, t.during);
    RunJoin(s, [Receive], s1, offers);
    var end := if t.result.Some? then SendOk(t.result.value) else SendErr;
    RunOne(s2, end);
    RunJoin(s, [Receive] + offers, s2, [end]);
    es := [Receive] + offers + [end];
  }

  /** The loop is a run of the step system, so all of the above holds of it. */
  lemma {:induction false} TurnsAreARun(s: State, turns: seq<Turn>) returns (es: seq<Event>)
    requires !s.ended && s.out.None?
    ensures Run(s, es) == Some(AfterTurns(s, turns))
    decreases |turns|
  {
    if turns == [] {
      es := [];
    } else {
      var s1 := AfterTurn(s, turns[0]);
      es := TurnIsARun(s, turns[0]);
      if !s1.ended {
        var rest := TurnsAreARun(s1, turns[1..]);
        RunJoin(s, es, s1, rest);
        es := es + rest;
      }
    }
  }

  /** The channel of a session with the relay task that drains it. */
  class Upstream {
    var queue: seq<Packet>
    var bytes: nat                     // bytes_total{up}
    var cancelled: bool
    var hungUp: bool
    var ended: bool                    // the receiving end is gone
    ghost var offered: seq<(Packet, bool)>
    ghost var out: Option<Packet>
    ghost var sent: seq<Packet>

    ghost function View(): State
      reads this
    {
      State(offered, queue, out, sent, bytes, cancelled, hungUp, ended)
    }

    constructor ()
      ensures View() == FRESH
    {
      queue, bytes, cancelled, hungUp, ended := [], 0, false, false, false;
      offered, out, sent := [], None, [];
    }

    method TrySend(d: Packet) returns (ok: bool)
      requires !hungUp
      modifies this`queue, this`offered
      ensures View() == Do(old(View()), Offer(d))
      ensures ok <==> !old(ended) && |old(queue)| < 256
      ensures queue == if ok then old(queue) + [d] else old(queue)
    {
      ok := !ended && |queue| < CAPACITY;
      offered := offered + [(d, ok)];
      if ok {
        queue := queue + [d];
      }
    }

    method TryAll(ds: seq<Packet>)
      modifies this`queue, this`offered
      ensures View() == OfferAll(old(View()), ds)
    {
      if hungUp {
        return;
      }
      var i := 0;
      while i < |ds|
        invariant 0 <= i <= |ds| && OfferAll(View(), ds[i..]) == OfferAll(old(View()), ds)
        invariant !hungUp
      {
        assert ds[i..][1..] == ds[i + 1..];
        var ok := TrySend(ds[i]);
        i := i + 1;
      }
    }

    /** The relay task: waits for a datagram or a cancelled token, sends, ends at an error. */
    method RelayTask(turns: seq<Turn>)
      requires !ended && out.None?
      modifies this
      ensures View() == AfterTurns(old(View()), turns)
    {
      var i := 0;
      while i < |turns| && !ended
        invariant 0 <= i <= |turns|
        invariant if ended then View() == AfterTurns(old(View()), turns)
                  else out.None? && AfterTurns(View(), turns[i..]) == AfterTurns(old(View()), turns)
        decreases |turns| - i, !ended
      {
        assert turns[i..][1..] == turns[i + 1..];
        OneTurn(turns[i]);
        i := i + 1;
      }
    }

    method OneTurn(t: Turn)
      requires !ended && out.None?
      modifies this
      ensures View() == AfterTurn(old(View()), t) && (!ended ==> out.None?)
    {
      OfferKeepsTask(View(), t.before);
      TryAll(t.before);
      cancelled, hungUp := cancelled || t.cancel, hungUp || t.hangUp;
      if cancelled {
        queue, ended := [], true;
      } else if queue != [] {
        SendOne(t);
      } else if hungUp {
        cancelled, ended := true, true;
      }
    }

    method SendOne(t: Turn)
      requires Can(View(), Receive)
      modifies this
      ensures var s2 := OfferAll(Do(old(View()), Receive), t.during);
              && !s2.ended && s2.out.Some?
              && View() == if t.result.Some? then Do(s2, SendOk(t.result.value)) else Do(s2, SendErr)
    {
      var d := queue[0];
      queue, out := queue[1..], Some(d);
      OfferKeepsTask(View(), t.during);
      TryAll(t.during);
      if t.result.Some? {
        bytes, sent := bytes + t.result.value, sent + [d];
      } else {
        queue, cancelled, ended := [], true, true;
      }
      out := None;
    }
  }
}
