/** A whole eviction pass over the session map, and what it leaves. */
module UdpPass {
  import opened Machine
  import opened Limits
  import opened UdpTable

  /** The pass looks at the sessions one after the other, in the map's own order. */
  function Pass(idleSecs: u64, t: Table, order: seq<Src>, now: u64): Table
    decreases |order|
  {
    if order == [] then t else Pass(idleSecs, SweepOne(idleSecs, t, order[0], now), order[1..], now)
  }

  function Named(order: seq<Src>): set<Src> {
    set src | src in order
  }

  ghost predicate Distinct(order: seq<Src>) {
    forall i, j :: 0 <= i < j < |order| ==> order[i] != order[j]
  }

  lemma {:induction false} PassSnoc(idleSecs: u64, t: Table, order: seq<Src>, src: Src, now: u64)
    ensures Pass(idleSecs, t, order + [src], now) == SweepOne(idleSecs, Pass(idleSecs, t, order, now), src, now)
    decreases |order|
  {
    if order == [] {
      assert Pass(idleSecs, t, [src], now) == Pass(idleSecs, SweepOne(idleSecs, t, src, now), [], now);
    } else {
      assert (order + [src])[1..] == order[1..] + [src];
      PassSnoc(idleSecs, SweepOne(idleSecs, t, order[0], now), order[1..], src, now);
    }
  }

  lemma {:induction false} PassKeeps(caps: Caps, idleSecs: u64, t: Table, order: seq<Src>, now: u64)
    requires TableInv(caps, t)
    ensures TableInv(caps, Pass(idleSecs, t, order, now))
    decreases |order|
  {
    if order != [] {
      SweepOneKeeps(caps, idleSecs, t, order[0], now);
      PassKeeps(caps, idleSecs, SweepOne(idleSecs, t, order[0], now), order[1..], now);
    }
  }

  // ── What a pass leaves ────────────────────────────────────────────────────

  /** The sessions among `keys` that are dead, and those that are only stale. */
  function DeadOf(t: Table, keys: set<Src>): set<Src> {
    set src | src in keys && src in t.sessions && Object(t, t.sessions[src]).dead
  }

  function StaleOf(idleSecs: u64, t: Table, keys: set<Src>, now: u64): set<Src> {
    set src | src in keys && src in t.sessions && !Object(t, t.sessions[src]).dead
              && Stale(idleSecs, Object(t, t.sessions[src]).last, now)
  }

  /** What sweeping `keys` amounts to: the dead and the stale leave the map, each counted once
      under its label; the stale ones are cancelled; the rest is as before. */
  ghost predicate Swept(idleSecs: u64, t: Table, keys: set<Src>, now: u64, t': Table) {
    && t'.sessions == t.sessions - DeadOf(t, keys) - StaleOf(idleSecs, t, keys, now)
    && t'.errorClosed == t.errorClosed + |DeadOf(t, keys)|
    && t'.idleClosed == t.idleClosed + |StaleOf(idleSecs, t, keys, now)|
    && t'.created == t.created && t'.shutdownClosed == t.shutdownClosed && t'.replaced == t.replaced
    && t'.pending == t.pending && t'.permit == t.permit && t'.home == t.home
    && t'.objects.Keys == t.objects.Keys
    && (forall src <- t'.sessions :: Object(t', t'.sessions[src]) == Object(t, t.sessions[src]))
    && (forall src <- StaleOf(idleSecs, t, keys, now) :: Object(t', t.sessions[src]).dead)
  }

  predicate OnlyStale(idleSecs: u64, o: Session, now: u64) {
    !o.dead && Stale(idleSecs, o.last, now)
  }

  /** What sweeping the session `o` of `src` does, but for the slots. */
  ghost predicate OneSwept(idleSecs: u64, o: Session, src: Src, id: Id, now: u64, t: Table, t': Table) {
    && t'.sessions == (if o.dead || OnlyStale(idleSecs, o, now) then t.sessions - {src} else t.sessions)
    && t'.errorClosed == t.errorClosed + (if o.dead then 1 else 0)
    && t'.idleClosed == t.idleClosed + (if OnlyStale(idleSecs, o, now) then 1 else 0)
    && t'.created == t.created && t'.shutdownClosed == t.shutdownClosed && t'.replaced == t.replaced
    && t'.pending == t.pending && t'.permit == t.permit && t'.home == t.home
    && t'.objects == if OnlyStale(idleSecs, o, now) then t.objects[id := o.(dead := true, deadAt := now)] else t.objects
  }

  lemma SweepShape(idleSecs: u64, t: Table, src: Src, now: u64)
    requires Linked(t) && src in t.sessions
    ensures var id := t.sessions[src];
            OneSwept(idleSecs, Object(t, id), src, id, now, t, SweepOne(idleSecs, t, src, now))
  {
    RemoveShape(t, src);
    RemoveShape(Kill(t, t.sessions[src], now), src);
  }

  lemma OneMoreKey(idleSecs: u64, t: Table, keys: set<Src>, src: Src, now: u64)
    requires src !in keys && src in t.sessions
    ensures var o := Object(t, t.sessions[src]);
            && DeadOf(t, keys + {src}) == DeadOf(t, keys) + (if o.dead then {src} else {})
            && StaleOf(idleSecs, t, keys + {src}, now) ==
               StaleOf(idleSecs, t, keys, now) + (if OnlyStale(idleSecs, o, now) then {src} else {})
            && src !in DeadOf(t, keys) && src !in StaleOf(idleSecs, t, keys, now)
  {}

  lemma SweptOneMore(idleSecs: u64, t: Table, keys: set<Src>, src: Src, now: u64, t': Table)
    requires Linked(t) && Linked(t') && Swept(idleSecs, t, keys, now, t') && src !in keys && src in t.sessions
    ensures Swept(idleSecs, t, keys + {src}, now, SweepOne(idleSecs, t', src, now))
  {
    NotYetSwept(idleSecs, t, keys, src, now, t');
    SweepShape(idleSecs, t', src, now);
    SweptJoins(idleSecs, t, keys, src, now, t', SweepOne(idleSecs, t', src, now));
  }

  lemma NotYetSwept(idleSecs: u64, t: Table, keys: set<Src>, src: Src, now: u64, t': Table)
    requires Swept(idleSecs, t, keys, now, t') && src !in keys && src in t.sessions
    ensures src in t'.sessions && t'.sessions[src] == t.sessions[src]
    ensures Object(t', t.sessions[src]) == Object(t, t.sessions[src])
  {}

  lemma SweptJoins(idleSecs: u64, t: Table, keys: set<Src>, src: Src, now: u64, t': Table, t2: Table)
    requires Linked(t) && Swept(idleSecs, t, keys, now, t') && src !in keys && src in t.sessions
    requires src in t'.sessions && t'.sessions[src] == t.sessions[src] && t.sessions[src] in t'.objects
    requires Object(t', t.sessions[src]) == Object(t, t.sessions[src])
    requires OneSwept(idleSecs, Object(t, t.sessions[src]), src, t.sessions[src], now, t', t2)
    ensures Swept(idleSecs, t, keys + {src}, now, t2)
  {
    SweptFields(idleSecs, t, keys, src, now, t', t2);
    SweptObjects(idleSecs, t, keys, src, now, t', t2);
  }

  lemma SweptFields(idleSecs: u64, t: Table, keys: set<Src>, src: Src, now: u64, t': Table, t2: Table)
    requires src !in keys && src in t.sessions
    requires t'.sessions == t.sessions - DeadOf(t, keys) - StaleOf(idleSecs, t, keys, now)
    requires t'.errorClosed == t.errorClosed + |DeadOf(t, keys)|
    requires t'.idleClosed == t.idleClosed + |StaleOf(idleSecs, t, keys, now)|
    requires OneSwept(idleSecs, Object(t, t.sessions[src]), src, t.sessions[src], now, t', t2)
    ensures t2.sessions == t.sessions - DeadOf(t, keys + {src}) - StaleOf(idleSecs, t, keys + {src}, now)
    ensures t2.errorClosed == t.errorClosed + |DeadOf(t, keys + {src})|
    ensures t2.idleClosed == t.idleClosed + |StaleOf(idleSecs, t, keys + {src}, now)|
  {
    var o := Object(t, t.sessions[src]);
    OneMoreKey(idleSecs, t, keys, src, now);
    MinusOne(t.sessions, DeadOf(t, keys), StaleOf(idleSecs, t, keys, now), src, o.dead, OnlyStale(idleSecs, o, now));
  }

  lemma MinusOne<K, V>(m: map<K, V>, a: set<K>, b: set<K>, k: K, inA: bool, inB: bool)
    ensures m - (a + if inA then {k} else {}) - (b + if inB then {k} else {}) ==
            if inA || inB then m - a - b - {k} else m - a - b
  {}

  lemma SweptObjects(idleSecs: u64, t: Table, keys: set<Src>, src: Src, now: u64, t': Table, t2: Table)
    requires Linked(t) && Swept(idleSecs, t, keys, now, t') && src !in keys
    requires src in t.sessions && src in t'.sessions && t'.sessions[src] == t.sessions[src]
    requires var id := t.sessions[src];
             && t2.objects == (if OnlyStale(idleSecs, Object(t, id), now)
                               then t'.objects[id := Object(t', id).(dead := true, deadAt := now)] else t'.objects)
             && t2.sessions == if Object(t, id).dead || OnlyStale(idleSecs, Object(t, id), now)
                               then t'.sessions - {src} else t'.sessions
    ensures forall other <- t2.sessions :: Object(t2, t2.sessions[other]) == Object(t, t.sessions[other])
    ensures forall other <- StaleOf(idleSecs, t, keys + {src}, now) :: Object(t2, t.sessions[other]).dead
  {
    assert forall other <- t.sessions :: other != src ==> t.sessions[other] != t.sessions[src];
  }

  lemma SweptNothing(idleSecs: u64, t: Table, now: u64)
    ensures Swept(idleSecs, t, {}, now, t)
  {
    assert DeadOf(t, {}) == {} && StaleOf(idleSecs, t, {}, now) == {};
    assert t.sessions - {} - {} == t.sessions;
  }

  lemma {:induction false} PassSweeps(caps: Caps, idleSecs: u64, t: Table, order: seq<Src>, now: u64)
    requires TableInv(caps, t) && Distinct(order) && Named(order) <= t.sessions.Keys
    ensures Swept(idleSecs, t, Named(order), now, Pass(idleSecs, t, order, now))
    decreases |order|
  {
    if order == [] {
      SweptNothing(idleSecs, t, now);
    } else {
      var init, last := order[..|order| - 1], order[|order| - 1];
      LastIsNew(init, last, order);
      PassSweeps(caps, idleSecs, t, init, now);
      PassSnoc(idleSecs, t, init, last, now);
      PassKeeps(caps, idleSecs, t, init, now);
      SweptOneMore(idleSecs, t, Named(init), last, now, Pass(idleSecs, t, init, now));
    }
  }

  lemma LastIsNew(init: seq<Src>, last: Src, order: seq<Src>)
    requires order != [] && init == order[..|order| - 1] && last == order[|order| - 1] && Distinct(order)
    ensures order == init + [last] && Distinct(init) && last !in Named(init) && Named(order) == Named(init) + {last}
  {
    assert order == init + [last];
  }
}
