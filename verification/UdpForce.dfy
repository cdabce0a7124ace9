/** The force arm of the UDP listener leaves no live session in the map, although relay tasks,
    set-up tasks and the cleanup task keep running beside it. */
module UdpForce {
  import opened Machine
  import opened UdpTable
  import opened UdpProxy
  import opened UdpInvariants
  import opened UdpTheorems
  import opened UdpTiming
  import opened UdpEviction

  ghost predicate ForceInv(s: State) {
    s.listener.Forcing? ==>
      forall src <- s.t.sessions :: src in s.listener.todo || Object(s.t, s.t.sessions[src]).dead
  }

  lemma OthersLeaveListener(cfg: Config, s: State, e: Event)
    requires Linked(s.t) && Can(cfg, s, e) && !OfListener(e)
    ensures Do(cfg, s, e).listener == s.listener
  {
    if OfSetup(e) {
      SetupShape(cfg, s, e);
    } else {
      SettledByRest(cfg, s, e);
    }
  }

  lemma AgingKeepsForce(s: State, s': State)
    requires Linked(s.t) && ForceInv(s) && Ages(s.t, s'.t, s.now) && s'.listener == s.listener
    ensures ForceInv(s')
  {}

  lemma OneMoreForced(s: State, src: Src)
    requires Linked(s.t) && ForceInv(s) && s.listener.Forcing? && src in s.t.sessions
    ensures ForceInv(AfterForceOne(s, src))
  {
    KillOnly(s.t, src, s.now);
  }

  lemma StepKeepsForce(cfg: Config, s: State, e: Event)
    requires Linked(s.t) && OwnersInv(s) && ForceInv(s) && Can(cfg, s, e)
    ensures ForceInv(Do(cfg, s, e))
  {
    if e.ForceOne? {
      OneMoreForced(s, e.src);
    } else if OfListener(e) {
      OtherListenerStep(cfg, s, e);
    } else if s.listener.Forcing? {
      OthersLeaveListener(cfg, s, e);
      AnyAges(cfg, s, e);
      AgingKeepsForce(s, Do(cfg, s, e));
    } else {
      OthersLeaveListener(cfg, s, e);
    }
  }

  lemma OtherListenerStep(cfg: Config, s: State, e: Event)
    requires Can(cfg, s, e) && OfListener(e) && !e.ForceOne?
    ensures ForceInv(Do(cfg, s, e))
  {
    if e.ForceBegins? {
      assert Do(cfg, s, e) == s.(listener := Forcing(s.t.sessions.Keys));
    } else {
      NotForcing(cfg, s, e);
    }
  }

  lemma ListenerWalks(cfg: Config, s: State, e: Event)
    requires Can(cfg, s, e) && OfListener(e) && !e.ForceBegins? && !e.LookUp? && !e.AskSlot? && !e.ForceOne?
    ensures !Do(cfg, s, e).listener.Forcing?
  {
    if e.MarkPending? {
      assert Do(cfg, s, e) == AfterMark(s);
    } else if e.DrainReadsPending? {
      assert Do(cfg, s, e) == AfterDrainTest(s);
    } else if e.ForceEnds? {
      assert Do(cfg, s, e) == AfterForce(s);
    } else {
      ListenerIdles(cfg, s, e);
    }
  }

  lemma ListenerIdles(cfg: Config, s: State, e: Event)
    requires Can(cfg, s, e) && (e.StartDrain? || e.Packet? || e.DrainReadsMap? || e.ClearMark? || e.Spawn?)
    ensures !Do(cfg, s, e).listener.Forcing?
  {}

  lemma NotForcing(cfg: Config, s: State, e: Event)
    requires Can(cfg, s, e) && OfListener(e) && !e.ForceOne? && !e.ForceBegins?
    ensures !Do(cfg, s, e).listener.Forcing?
  {
    if e.LookUp? {
      assert Do(cfg, s, e) == AfterLookUp(s);
    } else if e.AskSlot? {
      assert Do(cfg, s, e) == AfterAsk(s, Grant(cfg.caps, s.t, s.listener.src, s.next));
    } else {
      ListenerWalks(cfg, s, e);
    }
  }

  lemma {:induction false} RunKeepsForce(cfg: Config, s: State, es: seq<Event>)
    requires Inv(cfg, s) && ForceInv(s) && Run(cfg, s, es).Some?
    ensures ForceInv(Run(cfg, s, es).value)
    decreases |es|
  {
    if es != [] {
      StepKeepsInv(cfg, s, es[0]);
      StepKeepsForce(cfg, s, es[0]);
      RunKeepsForce(cfg, Do(cfg, s, es[0]), es[1..]);
    }
  }

  /** Whatever happens while the force arm walks over the map: when it is through, every
      session in the map is cancelled. */
  lemma ForceArmCancelsAll(cfg: Config, start: u64, es: seq<Event>, s: State, src: Src)
    requires Run(cfg, Init(start), es) == Some(s) && Can(cfg, s, ForceEnds) && src in s.t.sessions
    ensures Object(s.t, s.t.sessions[src]).dead
  {
    InitInv(cfg, start);
    RunKeepsForce(cfg, Init(start), es);
  }
}
