/** The state the UDP proxy's tasks share, and the critical sections on it: `src/proxy/udp.rs`.

    `Table` is a value: the session map, the `pending` set, the limiter and the counters. Each
    function below is one region of code that runs under a lock. An `Id` names one life of a
    session, from the admitted slot over the set-up task to the relay tasks, which keep their
    `Session` after it left the map. */
module UdpTable {
  import opened Machine
  import opened Net
  import opened Limits
  import opened Slots

  type Src = SocketAddr
  type Id = nat

  /** What the relay tasks share with the map: the activity stamp and the cancel token.
      `deadAt` and `joinedAt` record when the token was set and the map entered. */
  datatype Session = Session(last: u64, dead: bool, deadAt: u64, joinedAt: u64)

  const NOBODY := Session(0, true, 0, 0)

  datatype Table = Table(
    sessions: map<Src, Id>,
    objects: map<Id, Session>,
    pending: set<Src>,
    home: map<Id, Src>,            // the source each id was admitted for
    who: Owners, held: Guards, ledger: Ledger,
    created: nat,                   // connections_total
    idleClosed: nat, errorClosed: nat, shutdownClosed: nat,
    rejected: nat,
    replaced: nat,                 // inserts that found a session for their source
    active: int,                   // the gauge
    permit: bool)                  // the stored wake-up of the cleanup task

  const EMPTY_TABLE :=
    Table(map[], map[], {}, map[], map[], multiset{}, EMPTY, 0, 0, 0, 0, 0, 0, 0, false)

  function Object(t: Table, id: Id): Session {
    if id in t.objects then t.objects[id] else NOBODY
  }

  /** The eviction test. */
  predicate Stale(idleSecs: u64, last: u64, now: u64) {
    idleSecs > 0 && SatSub(now, last) >= Millis(idleSecs)
  }

  /** The scheduler's time left, zero exactly when the eviction test would hold: the two are
      written differently in the source but agree on every input. */
  function TimeToIdle(idleSecs: u64, last: u64, now: u64): u64 {
    SatSub(SatAdd(last, Millis(idleSecs)), now)
  }

  lemma TestsAgree(idleSecs: u64, last: u64, now: u64)
    requires idleSecs > 0 && now < U64_MAX
    ensures TimeToIdle(idleSecs, last, now) == 0 <==> Stale(idleSecs, last, now)
    ensures Stale(idleSecs, last, now) <==> now >= last + 1000 * idleSecs
    ensures TimeToIdle(idleSecs, last, now) == Max(0, Min(last + 1000 * idleSecs, U64_MAX) - now)
  {}

  // ── Critical sections ─────────────────────────────────────────────────────

  /** A `Guard` is dropped. */
  function DropSlot(t: Table, id: Id): Table {
    if id !in t.who then t
    else t.(who := t.who - {id}, held := t.held - multiset{t.who[id]}, ledger := Release(t.ledger, t.who[id]))
  }

  /** The map gives up the session of `src`, and with it the slot. */
  function Remove(t: Table, src: Src): Table {
    if src !in t.sessions then t else DropSlot(t.(sessions := t.sessions - {src}), t.sessions[src])
  }

  function Touch(t: Table, id: Id, now: u64): Table {
    t.(objects := t.objects[id := Object(t, id).(last := now)])
  }

  function Kill(t: Table, id: Id, now: u64): Table {
    if Object(t, id).dead then t else t.(objects := t.objects[id := Object(t, id).(dead := true, deadAt := now)])
  }

  /** The listener's fast path: forward to a live session, or evict a dead one. */
  function Lookup(t: Table, src: Src, now: u64): (Table, bool) {
    if src !in t.sessions then (t, false)
    else if Object(t, t.sessions[src]).dead then
      var t' := Remove(t, src);
      (t'.(errorClosed := t.errorClosed + 1, active := |t'.sessions|), false)
    else (Touch(t, t.sessions[src], now), true)
  }

  function Mark(t: Table, src: Src): Table {
    t.(pending := t.pending + {src})
  }

  function Unmark(t: Table, src: Src): Table {
    t.(pending := t.pending - {src})
  }

  /** `try_acquire` for `src`; an admission gets the name `id`. */
  function Grant(caps: Caps, t: Table, src: Src, id: Id): (Table, bool)
    requires NoOverflow(t.ledger, src.ip)
  {
    var (ledger, out) := TryAcquire(caps, t.ledger, src.ip);
    if out.Rejected? then (t.(ledger := ledger, rejected := t.rejected + 1), false)
    else (t.(ledger := ledger, held := t.held + multiset{src.ip},
             who := t.who[id := src.ip], home := t.home[id := src]),
          true)
  }

  /** The set-up task's last region. */
  function Insert(t: Table, src: Src, id: Id, now: u64): Table {
    Join(Remove(t, src).(replaced := t.replaced + if src in t.sessions then 1 else 0), src, id, now)
  }

  /** A session enters a map that has none for its source; the cleanup task is notified. */
  function Join(t: Table, src: Src, id: Id, now: u64): Table {
    t.(sessions := t.sessions[src := id],
       objects := t.objects[id := Object(t, id).(joinedAt := now)],
       created := t.created + 1,
       active := |t.sessions| + 1,
       permit := true)
  }

  /** The cleanup pass looks at one session. */
  function SweepOne(idleSecs: u64, t: Table, src: Src, now: u64): Table {
    if src !in t.sessions then t
    else
      var id := t.sessions[src];
      if Object(t, id).dead then Remove(t, src).(errorClosed := t.errorClosed + 1)
      else if Stale(idleSecs, Object(t, id).last, now) then
        Remove(Kill(t, id, now), src).(idleClosed := t.idleClosed + 1)
      else t
  }

  predicate Expired(idleSecs: u64, t: Table, src: Src, now: u64)
    requires src in t.sessions
  {
    Object(t, t.sessions[src]).dead || Stale(idleSecs, Object(t, t.sessions[src]).last, now)
  }

  /** The scheduler's wait: nothing if a session is dead, else up to the nearest idle deadline,
      at most five seconds. */
  ghost predicate IsWait(idleSecs: u64, t: Table, now: u64, wait: u64) {
    if exists src :: src in t.sessions && Object(t, t.sessions[src]).dead then wait == 0
    else if idleSecs == 0 then wait == 5000
    else
      && wait <= 5000
      && (forall src <- t.sessions :: wait <= TimeToIdle(idleSecs, Object(t, t.sessions[src]).last, now))
      && (wait < 5000 ==>
            exists src :: src in t.sessions && wait == TimeToIdle(idleSecs, Object(t, t.sessions[src]).last, now))
  }

  // ── Bookkeeping invariant ─────────────────────────────────────────────────

  ghost predicate InTable(t: Table, id: Id) {
    id in t.home && t.home[id] in t.sessions && t.sessions[t.home[id]] == id
  }

  /** Every session in the map is a live object that holds its own slot. */
  ghost predicate Linked(t: Table) {
    && (forall src <- t.sessions ::
          t.sessions[src] in t.who && t.sessions[src] in t.objects
          && t.sessions[src] in t.home && t.home[t.sessions[src]] == src)
    && (forall id <- t.who :: id in t.home && t.who[id] == t.home[id].ip)
  }

  ghost predicate SlotsInv(caps: Caps, t: Table) {
    Sound(caps, t.ledger, t.held) && Matches(t.held, t.who)
  }

  /** Each session ever opened is in the map or was closed under exactly one label, or its
      place was taken. */
  ghost predicate Conserved(t: Table) {
    t.created == |t.sessions| + t.idleClosed + t.errorClosed + t.replaced
  }

  ghost predicate TableInv(caps: Caps, t: Table) {
    Linked(t) && SlotsInv(caps, t) && Conserved(t)
  }

  lemma DropSlotKeeps(caps: Caps, t: Table, id: Id)
    requires SlotsInv(caps, t)
    ensures SlotsInv(caps, DropSlot(t, id))
  {
    if id in t.who {
      Give(t.held, t.who, id);
      ReleaseIsSound(caps, t.ledger, t.held, t.who[id]);
    }
  }

  /** A slot that is not the map's is given back. */
  lemma DropOtherSlotKeeps(caps: Caps, t: Table, id: Id)
    requires TableInv(caps, t) && !InTable(t, id)
    ensures TableInv(caps, DropSlot(t, id))
    ensures DropSlot(t, id) == t.(who := t.who - {id}, held := DropSlot(t, id).held, ledger := DropSlot(t, id).ledger)
  {
    DropSlotKeeps(caps, t, id);
    DropShape(t, id);
    DropOtherLinked(t, id, DropSlot(t, id));
  }

  lemma DropShape(t: Table, id: Id)
    ensures DropSlot(t, id) == t.(who := t.who - {id}, held := DropSlot(t, id).held, ledger := DropSlot(t, id).ledger)
  {
    if id !in t.who {
      assert t.who - {id} == t.who;
    }
  }

  lemma DropOtherLinked(t: Table, id: Id, t': Table)
    requires Linked(t) && !InTable(t, id)
    requires t' == t.(who := t.who - {id}, held := t'.held, ledger := t'.ledger)
    ensures Linked(t')
  {}

  lemma RemoveKeeps(caps: Caps, t: Table, src: Src)
    requires Linked(t) && SlotsInv(caps, t)
    ensures Linked(Remove(t, src)) && SlotsInv(caps, Remove(t, src))
    ensures |Remove(t, src).sessions| == |t.sessions| - if src in t.sessions then 1 else 0
  {
    if src in t.sessions {
      DropSlotKeeps(caps, t.(sessions := t.sessions - {src}), t.sessions[src]);
      RemoveSize(t.sessions, src);
    }
  }

  lemma RemoveSize<K, V>(m: map<K, V>, k: K)
    requires k in m
    ensures |m - {k}| == |m| - 1
  {
    assert (m - {k}).Keys == m.Keys - {k};
  }

  /** The fast path answers "forwarded" exactly for a live session, which it refreshes and leaves
      alone otherwise. After any other answer the source has no session: a dead one was evicted,
      counted once and as an error. */
  lemma LookupAnswers(t: Table, src: Src, now: u64)
    requires Linked(t)
    ensures var (t', found) := Lookup(t, src, now);
            && (found <==> src in t.sessions && !Object(t, t.sessions[src]).dead)
            && t'.sessions == (if found then t.sessions else t.sessions - {src})
            && t'.objects == (if found then t.objects[t.sessions[src] := t.objects[t.sessions[src]].(last := now)]
                              else t.objects)
            && t'.errorClosed == t.errorClosed + (if src in t.sessions && !found then 1 else 0)
            && t'.idleClosed == t.idleClosed && t'.shutdownClosed == t.shutdownClosed
            && t'.created == t.created && t'.rejected == t.rejected
            && t'.pending == t.pending && t'.permit == t.permit
  {
    RemoveShape(t, src);
  }

  /** An evicted session leaves room for its source, whatever the caps. */
  lemma EvictionMakesRoom(caps: Caps, t: Table, src: Src)
    requires TableInv(caps, t) && src in t.sessions
    ensures var t' := Remove(t, src);
            |t'.held| < U32_MAX && NoOverflow(t'.ledger, src.ip) && Verdict(caps, t'.ledger, src.ip) == None
  {
    var id := t.sessions[src];
    Give(t.held, t.who, id);
    ReleaseIsSound(caps, t.ledger, t.held, src.ip);
    ReleaseCounts(t.ledger, src.ip);
    PartFits(t.held, src.ip);
  }

  lemma ReleaseCounts(ledger: Ledger, ip: IpAddr)
    requires ledger.total > 0 && Count(ledger, ip) > 0
    ensures Release(ledger, ip).total == ledger.total - 1 && Count(Release(ledger, ip), ip) == Count(ledger, ip) - 1
  {}

  lemma LookupKeeps(caps: Caps, t: Table, src: Src, now: u64)
    requires TableInv(caps, t)
    ensures TableInv(caps, Lookup(t, src, now).0)
  {
    var t' := Lookup(t, src, now).0;
    if src in t.sessions {
      if Object(t, t.sessions[src]).dead {
        CloseKeeps(caps, t, src, t');
      } else {
        SlotsFrame(caps, t, t');
      }
    }
  }

  /** What the slots are depends on three fields only. */
  lemma SlotsFrame(caps: Caps, t: Table, t': Table)
    requires SlotsInv(caps, t) && t'.who == t.who && t'.held == t.held && t'.ledger == t.ledger
    ensures SlotsInv(caps, t')
  {}

  lemma KillKeeps(caps: Caps, t: Table, id: Id, now: u64)
    requires TableInv(caps, t)
    ensures TableInv(caps, Kill(t, id, now))
  {
    SlotsFrame(caps, t, Kill(t, id, now));
  }

  /** A session leaves the map under one more label. */
  lemma CloseKeeps(caps: Caps, t: Table, src: Src, t': Table)
    requires TableInv(caps, t) && src in t.sessions
    requires t' == Remove(t, src).(idleClosed := t'.idleClosed, errorClosed := t'.errorClosed, active := t'.active)
    requires t'.idleClosed + t'.errorClosed == t.idleClosed + t.errorClosed + 1
    ensures TableInv(caps, t')
  {
    RemoveKeeps(caps, t, src);
    SlotsFrame(caps, Remove(t, src), t');
  }

  lemma SweepOneKeeps(caps: Caps, idleSecs: u64, t: Table, src: Src, now: u64)
    requires TableInv(caps, t)
    ensures TableInv(caps, SweepOne(idleSecs, t, src, now))
  {
    if src in t.sessions && Expired(idleSecs, t, src, now) {
      var id := t.sessions[src];
      if Object(t, id).dead {
        CloseKeeps(caps, t, src, SweepOne(idleSecs, t, src, now));
      } else {
        KillKeeps(caps, t, id, now);
        CloseKeeps(caps, Kill(t, id, now), src, SweepOne(idleSecs, t, src, now));
      }
    }
  }

  /** Admission gives the new id exactly one slot; a refusal gives nobody one. */
  lemma GrantKeeps(caps: Caps, t: Table, src: Src, id: Id)
    requires TableInv(caps, t) && id !in t.home && NoOverflow(t.ledger, src.ip) && |t.held| < U32_MAX
    ensures var (t', granted) := Grant(caps, t, src, id);
            && TableInv(caps, t')
            && (id in t'.who <==> granted) && t'.who - {id} == t.who
            && |t'.held| == |t.held| + if granted then 1 else 0
  {
    assert id !in t.who;
    GrantKeepsSlots(caps, t, src, id);
    GrantKeepsLinks(caps, t, src, id);
    GrantTakesOne(caps, t, src, id);
  }

  lemma GrantTakesOne(caps: Caps, t: Table, src: Src, id: Id)
    requires id !in t.who && NoOverflow(t.ledger, src.ip)
    ensures var (t', granted) := Grant(caps, t, src, id);
            && (id in t'.who <==> granted) && t'.who - {id} == t.who
            && |t'.held| == |t.held| + (if granted then 1 else 0)
            && t'.sessions == t.sessions && Closings(t') == Closings(t)
  {}

  /** What the conservation law counts besides the map. */
  function Closings(t: Table): int {
    t.idleClosed + t.errorClosed + t.replaced - t.created
  }

  lemma GrantKeepsSlots(caps: Caps, t: Table, src: Src, id: Id)
    requires SlotsInv(caps, t) && id !in t.who && NoOverflow(t.ledger, src.ip) && |t.held| < U32_MAX
    ensures SlotsInv(caps, Grant(caps, t, src, id).0)
  {
    AcquireIsSound(caps, t.ledger, t.held, src.ip);
    Take(t.held, t.who, id, src.ip);
  }

  lemma GrantKeepsLinks(caps: Caps, t: Table, src: Src, id: Id)
    requires Linked(t) && id !in t.home && NoOverflow(t.ledger, src.ip)
    ensures Linked(Grant(caps, t, src, id).0)
  {}

  lemma InsertKeeps(caps: Caps, t: Table, src: Src, id: Id, now: u64)
    requires TableInv(caps, t) && id in t.who && t.home[id] == src && !InTable(t, id)
    ensures TableInv(caps, Insert(t, src, id, now))
    ensures Insert(t, src, id, now).active == |Insert(t, src, id, now).sessions|
  {
    RemoveKeeps(caps, t, src);
    PutSize(Remove(t, src).sessions, src, id);
    SlotsFrame(caps, Remove(t, src), Insert(t, src, id, now));
    InsertLinks(t, src, id, now);
  }

  lemma RemoveShape(t: Table, src: Src)
    requires Linked(t)
    ensures var t' := Remove(t, src);
            t' == t.(sessions := t.sessions - {src},
                     who := if src in t.sessions then t.who - {t.sessions[src]} else t.who,
                     held := t'.held, ledger := t'.ledger)
  {
    if src !in t.sessions {
      assert t.sessions - {src} == t.sessions;
    }
  }

  /** What an insert does to the map and the slots. */
  lemma InsertFacts(t: Table, src: Src, id: Id, now: u64)
    requires Linked(t)
    ensures var t' := Insert(t, src, id, now);
            && t'.sessions == t.sessions[src := id] && t'.home == t.home && t'.pending == t.pending
            && t'.who == (if src in t.sessions then t.who - {t.sessions[src]} else t.who)
            && t'.objects.Keys == t.objects.Keys + {id}
  {
    RemoveShape(t, src);
    Reput(t.sessions, src, id);
  }

  lemma Reput<K, V>(m: map<K, V>, k: K, v: V)
    ensures (m - {k})[k := v] == m[k := v]
  {}

  lemma InsertLinks(t: Table, src: Src, id: Id, now: u64)
    requires Linked(t) && id in t.who && t.home[id] == src && !InTable(t, id)
    ensures Linked(Insert(t, src, id, now))
  {}

  lemma PutSize<K, V>(m: map<K, V>, k: K, v: V)
    requires k !in m
    ensures |m[k := v]| == |m| + 1
  {
    assert m[k := v].Keys == m.Keys + {k};
  }
}
