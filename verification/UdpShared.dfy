/** The state shared by the UDP proxy's tasks in its in-place form: the session map, the
    `pending` set and the counters, mutated under their locks. Every method is one critical
    section and is proved to do what `UdpTable` says it does; the two loops over the map are
    here too. A session record lives in `objects` under its id, where the map and the relay
    tasks both reach it. */
module UdpShared {
  import opened Machine
  import opened Limits
  import opened Slots
  import opened UdpTable
  import opened UdpPass

  class SharedTable {
    const limits: ConnLimits
    var sessions: map<Src, Id>
    var objects: map<Id, Session>
    var pending: set<Src>
    ghost var home: map<Id, Src>
    ghost var who: Owners
    var created: nat
    var idleClosed: nat
    var errorClosed: nat
    var shutdownClosed: nat
    var rejected: nat
    ghost var replaced: nat
    var active: int
    var permit: bool

    ghost function View(): Table
      reads this, limits
    {
      Table(sessions, objects, pending, home, who, limits.guards, limits.View(),
            created, idleClosed, errorClosed, shutdownClosed, rejected, replaced, active, permit)
    }

    ghost predicate Valid()
      reads this, limits
    {
      TableInv(limits.caps, View())
    }

    constructor (limits: ConnLimits)
      requires limits.Valid() && limits.guards == multiset{} && limits.View() == EMPTY
      ensures Valid() && View() == EMPTY_TABLE && this.limits == limits
    {
      this.limits := limits;
      sessions, objects, pending, home, who := map[], map[], {}, map[], map[];
      created, idleClosed, errorClosed, shutdownClosed, rejected, replaced := 0, 0, 0, 0, 0, 0;
      active, permit := 0, false;
    }

    /** The session of `src` leaves the map; dropping it gives back its slot. */
    method Evict(src: Src)
      requires src in sessions && sessions[src] in who && who[sessions[src]] == src.ip
      requires limits.Valid() && src.ip in limits.guards
      modifies this`sessions, this`who, limits
      ensures View() == Remove(old(View()), src) && limits.Valid()
    {
      who := who - {sessions[src]};
      sessions := sessions - {src};
      limits.DropGuard(src.ip);
    }

    /** The listener finds a dead session. */
    method EvictDead(src: Src)
      requires src in sessions && sessions[src] in who && who[sessions[src]] == src.ip
      requires limits.Valid() && src.ip in limits.guards
      modifies this`sessions, this`who, this`errorClosed, this`active, limits
      ensures View() == Remove(old(View()), src).(errorClosed := old(errorClosed) + 1, active := |sessions|)
    {
      Evict(src);
      errorClosed := errorClosed + 1;
      active := |sessions|;
    }

    method Refresh(id: Id, now: u64)
      requires id in objects
      modifies this`objects
      ensures View() == UdpTable.Touch(old(View()), id, now)
    {
      objects := objects[id := objects[id].(last := now)];
    }

    /** What the map promises about a session it holds. */
    ghost predicate HasSlot(src: Src)
      reads this, limits
    {
      src in sessions ==>
        && sessions[src] in objects && sessions[src] in who && who[sessions[src]] == src.ip
        && limits.Valid() && src.ip in limits.guards
    }

    method LookUp(src: Src, now: u64) returns (found: bool)
      requires HasSlot(src)
      modifies this, limits
      ensures (View(), found) == Lookup(old(View()), src, now)
    {
      if src !in sessions {
        found := false;
      } else if objects[sessions[src]].dead {
        EvictDead(src);
        found := false;
      } else {
        Refresh(sessions[src], now);
        found := true;
      }
    }

    /** The listener's fast path. */
    method Forward(src: Src, now: u64) returns (found: bool)
      requires Valid()
      modifies this, limits
      ensures Valid() && (View(), found) == Lookup(old(View()), src, now)
      ensures found <==> src in old(sessions) && !Object(old(View()), old(sessions)[src]).dead
      ensures sessions == if found then old(sessions) else old(sessions) - {src}
    {
      LookupKeeps(limits.caps, View(), src, now);
      LookupAnswers(View(), src, now);
      assert HasSlot(src) by {
        HoldsSlot(limits.caps, View(), src);
      }
      found := LookUp(src, now);
    }

    /** `pending.insert`, which says whether the source is new there. */
    method MarkPending(src: Src) returns (isNew: bool)
      requires Valid()
      modifies this`pending
      ensures Valid() && View() == Mark(old(View()), src) && (isNew <==> src !in old(pending))
    {
      SlotsFrame(limits.caps, View(), Mark(View(), src));
      isNew := src !in pending;
      pending := pending + {src};
    }

    /** A `PendingGuard` is dropped. */
    method ClearMark(src: Src)
      requires Valid()
      modifies this`pending
      ensures Valid() && View() == Unmark(old(View()), src)
    {
      SlotsFrame(limits.caps, View(), Unmark(View(), src));
      pending := pending - {src};
    }

    /** Admission; `id` names the new life. */
    method Admit(src: Src, ghost id: Id) returns (ok: bool)
      requires Valid() && id !in home && |limits.guards| < U32_MAX
      modifies this`who, this`home, this`rejected, limits
      ensures Valid() && NoOverflow(old(View()).ledger, src.ip)
      ensures (View(), ok) == Grant(limits.caps, old(View()), src, id)
    {
      ghost var before := View();
      AcquireIsSound(limits.caps, before.ledger, before.held, src.ip);
      GrantKeeps(limits.caps, before, src, id);
      ok := Acquire(src, id);
    }

    method Acquire(src: Src, ghost id: Id) returns (ok: bool)
      requires limits.Valid() && |limits.guards| < U32_MAX && NoOverflow(limits.View(), src.ip)
      modifies this`who, this`home, this`rejected, limits
      ensures (View(), ok) == Grant(limits.caps, old(View()), src, id)
    {
      var out := limits.Acquire(src.ip);
      ok := out.Admitted?;
      if ok {
        who, home := who[id := src.ip], home[id := src];
      } else {
        rejected := rejected + 1;
      }
    }

    /** A slot is given back by a set-up that failed. */
    method DropSlotOf(ghost id: Id, src: Src)
      requires Valid() && id in who && who[id] == src.ip && !InTable(View(), id)
      modifies this`who, limits
      ensures Valid() && View() == DropSlot(old(View()), id)
    {
      DropOtherSlotKeeps(limits.caps, View(), id);
      Give(limits.guards, who, id);
      who := who - {id};
      limits.DropGuard(src.ip);
    }

    /** The end of a set-up that went well. */
    method InsertSession(src: Src, id: Id, now: u64)
      requires Valid() && id in who && home[id] == src && !InTable(View(), id)
      modifies this, limits
      ensures Valid() && View() == Insert(old(View()), src, id, now)
    {
      InsertKeeps(limits.caps, View(), src, id, now);
      assert HasSlot(src) by {
        HoldsSlot(limits.caps, View(), src);
      }
      Put(src, id, now);
    }

    method Put(src: Src, id: Id, now: u64)
      requires HasSlot(src)
      modifies this, limits
      ensures View() == Insert(old(View()), src, id, now)
    {
      MakeRoom(src);
      assert src !in sessions by {
        assert View().sessions == Remove(old(View()), src).sessions;
      }
      Join(src, id, now);
    }

    method MakeRoom(src: Src)
      requires HasSlot(src)
      modifies this`sessions, this`who, this`replaced, limits
      ensures View() == Remove(old(View()), src).(replaced := old(replaced) + if src in old(sessions) then 1 else 0)
    {
      if src in sessions {
        Evict(src);
        replaced := replaced + 1;
      }
    }

    method Join(src: Src, id: Id, now: u64)
      requires src !in sessions
      modifies this`sessions, this`objects, this`created, this`active, this`permit
      ensures View() == UdpTable.Join(old(View()), src, id, now)
    {
      assert |sessions[src := id]| == |sessions| + 1 by {
        PutSize(sessions, src, id);
      }
      sessions := sessions[src := id];
      objects := objects[id := (if id in objects then objects[id] else NOBODY).(joinedAt := now)];
      created := created + 1;
      active := |sessions|;
      permit := true;
    }

    // ── The cleanup task's loops ────────────────────────────────────────────

    /** Looks at one entry of the map, as `retain` does. */
    method Examine(idleSecs: u64, src: Src, now: u64)
      requires HasSlot(src) && src in sessions
      modifies this, limits
      ensures View() == SweepOne(idleSecs, old(View()), src, now)
    {
      var s := objects[sessions[src]];
      if s.dead {
        CloseDead(src);
      } else if idleSecs > 0 && SatSub(now, s.last) >= Millis(idleSecs) {
        Cancel(sessions[src], now);
        CloseIdle(src);
      }
    }

    method Cancel(id: Id, now: u64)
      requires id in objects
      modifies this`objects
      ensures View() == Kill(old(View()), id, now)
    {
      if !objects[id].dead {
        objects := objects[id := objects[id].(dead := true, deadAt := now)];
      }
    }

    method CloseDead(src: Src)
      requires HasSlot(src) && src in sessions
      modifies this`sessions, this`who, this`errorClosed, limits
      ensures View() == Remove(old(View()), src).(errorClosed := old(errorClosed) + 1)
    {
      Evict(src);
      errorClosed := errorClosed + 1;
    }

    method CloseIdle(src: Src)
      requires HasSlot(src) && src in sessions
      modifies this`sessions, this`who, this`idleClosed, limits
      ensures View() == Remove(old(View()), src).(idleClosed := old(idleClosed) + 1)
    {
      Evict(src);
      idleClosed := idleClosed + 1;
    }

    /** The eviction pass: `retain` over the whole map, then the gauge. */
    method Retain(idleSecs: u64, now: u64) returns (ghost order: seq<Src>)
      requires Valid()
      modifies this, limits
      ensures Valid() && Distinct(order) && Named(order) == old(sessions).Keys
      ensures View() == Pass(idleSecs, old(View()), order, now).(active := |sessions|)
      ensures Swept(idleSecs, old(View()), old(sessions).Keys, now, View())
    {
      ghost var before := View();
      order := ExamineAll(idleSecs, now);
      PassIsDone(limits.caps, idleSecs, before, order, now, |sessions|);
      active := |sessions|;
    }

    method ExamineAll(idleSecs: u64, now: u64) returns (ghost order: seq<Src>)
      requires Valid()
      modifies this, limits
      ensures View() == Pass(idleSecs, old(View()), order, now)
      ensures Distinct(order) && Named(order) == old(sessions).Keys
    {
      ghost var before := View();
      order := [];
      var todo := sessions.Keys;
      while todo != {}
        invariant View() == Pass(idleSecs, before, order, now)
        invariant Between(order, todo, before.sessions.Keys)
        decreases |todo|
      {
        var src :| src in todo;
        ExamineNext(idleSecs, src, now, before, order, todo);
        order, todo := order + [src], todo - {src};
      }
    }

    method ExamineNext(idleSecs: u64, src: Src, now: u64, ghost before: Table, ghost order: seq<Src>,
                       ghost todo: set<Src>)
      requires TableInv(limits.caps, before) && View() == Pass(idleSecs, before, order, now)
      requires Between(order, todo, before.sessions.Keys) && src in todo
      modifies this, limits
      ensures View() == Pass(idleSecs, before, order + [src], now)
      ensures Between(order + [src], todo - {src}, before.sessions.Keys)
    {
      OneLess(order, todo, src, before.sessions.Keys);
      ReadyToExamine(limits.caps, idleSecs, before, order, src, now);
      Examine(idleSecs, src, now);
    }

    /** How long the cleanup task may sleep. */
    method NextWait(idleSecs: u64, now: u64) returns (wait: u64)
      requires Valid()
      ensures IsWait(idleSecs, View(), now, wait)
    {
      var todo := sessions.Keys;
      while todo != {}
        invariant todo <= sessions.Keys
        invariant forall src <- sessions :: src in todo || !objects[sessions[src]].dead
        decreases |todo|
      {
        var src :| src in todo;
        if objects[sessions[src]].dead {
          return 0;
        }
        todo := todo - {src};
      }
      wait := 5000;
      if idleSecs > 0 {
        todo := sessions.Keys;
        while todo != {}
          invariant todo <= sessions.Keys && wait <= 5000
          invariant forall src <- sessions ::
              src in todo || wait <= TimeToIdle(idleSecs, objects[sessions[src]].last, now)
          invariant wait < 5000 ==>
              exists src :: src in sessions && wait == TimeToIdle(idleSecs, objects[sessions[src]].last, now)
          decreases |todo|
        {
          var src :| src in todo;
          wait := Min(wait, SatSub(SatAdd(objects[sessions[src]].last, Millis(idleSecs)), now));
          todo := todo - {src};
        }
      }
    }

    /** The listener's force arm. */
    method ForceShutdown(now: u64)
      requires Valid()
      modifies this`objects, this`shutdownClosed, this`active
      ensures Valid()
      ensures View() == old(View()).(objects := objects, active := 0,
                                     shutdownClosed := old(shutdownClosed) + |sessions|)
      ensures AllCancelled(old(View()), {}, now, objects)
    {
      ghost var before := View();
      CancelAll(now);
      ForceFrame(limits.caps, before, objects, |sessions|);
      CountForced();
    }

    method CountForced()
      modifies this`shutdownClosed, this`active
      ensures View() == old(View()).(active := 0, shutdownClosed := old(shutdownClosed) + |sessions|)
    {
      shutdownClosed := shutdownClosed + |sessions|;
      active := 0;
    }

    method CancelAll(now: u64)
      requires Linked(View())
      modifies this`objects
      ensures View() == old(View()).(objects := objects)
      ensures AllCancelled(old(View()), {}, now, objects)
    {
      ghost var before := View();
      var todo := sessions.Keys;
      while todo != {}
        invariant todo <= sessions.Keys && AllCancelled(before, todo, now, objects)
        decreases |todo|
      {
        var src :| src in todo;
        CancelOneMore(before, todo, src, now, objects);
        Cancel(sessions[src], now);
        todo := todo - {src};
      }
    }
  }

  /** Every session in the map, but for those of `todo`, is cancelled by `now`; the other
      sessions are as they were. */
  ghost predicate AllCancelled(t: Table, todo: set<Src>, now: u64, objects: map<Id, Session>) {
    && objects.Keys == t.objects.Keys
    && forall id <- objects ::
         objects[id] == if InTable(t, id) && t.home[id] !in todo then Cancelled(t.objects[id], now) else t.objects[id]
  }

  function Cancelled(o: Session, now: u64): Session {
    if o.dead then o else o.(dead := true, deadAt := now)
  }

  lemma CancelOneMore(t: Table, todo: set<Src>, src: Src, now: u64, objects: map<Id, Session>)
    requires Linked(t) && src in todo && src in t.sessions && AllCancelled(t, todo, now, objects)
    ensures var id := t.sessions[src];
            && id in objects
            && AllCancelled(t, todo - {src}, now, objects[id := Cancelled(objects[id], now)])
            && (objects[id].dead ==> objects[id := Cancelled(objects[id], now)] == objects)
  {
    assert InTable(t, t.sessions[src]) && t.home[t.sessions[src]] == src;
  }

  lemma ForceFrame(caps: Caps, t: Table, objects: map<Id, Session>, closed: nat)
    requires TableInv(caps, t) && t.objects.Keys <= objects.Keys
    ensures TableInv(caps, t.(objects := objects, active := 0, shutdownClosed := t.shutdownClosed + closed))
  {
    SlotsFrame(caps, t, t.(objects := objects, active := 0, shutdownClosed := t.shutdownClosed + closed));
  }

  lemma PassIsDone(caps: Caps, idleSecs: u64, t: Table, order: seq<Src>, now: u64, active: nat)
    requires TableInv(caps, t) && Distinct(order) && Named(order) == t.sessions.Keys
    ensures var t' := Pass(idleSecs, t, order, now).(active := active);
            TableInv(caps, t') && Swept(idleSecs, t, t.sessions.Keys, now, t')
  {
    PassKeeps(caps, idleSecs, t, order, now);
    PassSweeps(caps, idleSecs, t, order, now);
    GaugeFrame(caps, idleSecs, t, t.sessions.Keys, now, Pass(idleSecs, t, order, now), active);
  }

  lemma GaugeFrame(caps: Caps, idleSecs: u64, t: Table, keys: set<Src>, now: u64, t': Table, active: nat)
    requires TableInv(caps, t') && Swept(idleSecs, t, keys, now, t')
    ensures TableInv(caps, t'.(active := active)) && Swept(idleSecs, t, keys, now, t'.(active := active))
  {
    SlotsFrame(caps, t', t'.(active := active));
  }

  /** `order` has been looked at, `todo` has not. */
  ghost predicate Between(order: seq<Src>, todo: set<Src>, keys: set<Src>) {
    Distinct(order) && Named(order) + todo == keys && Named(order) !! todo
  }

  lemma OneLess(order: seq<Src>, todo: set<Src>, src: Src, keys: set<Src>)
    requires Between(order, todo, keys) && src in todo
    ensures Between(order + [src], todo - {src}, keys)
    ensures Distinct(order) && Named(order) <= keys && src in keys && src !in Named(order)
  {
    assert Named(order + [src]) == Named(order) + {src};
  }

  /** The loop over the map, one session before it is examined. */
  lemma ReadyToExamine(caps: Caps, idleSecs: u64, t: Table, order: seq<Src>, src: Src, now: u64)
    requires TableInv(caps, t) && Distinct(order) && Named(order) <= t.sessions.Keys
    requires src in t.sessions && src !in Named(order)
    ensures var t' := Pass(idleSecs, t, order, now);
            && Pass(idleSecs, t, order + [src], now) == SweepOne(idleSecs, t', src, now)
            && src in t'.sessions && t'.sessions[src] in t'.objects
            && t'.sessions[src] in t'.who && t'.who[t'.sessions[src]] == src.ip
            && Sound(caps, t'.ledger, t'.held) && src.ip in t'.held
  {
    PassSnoc(idleSecs, t, order, src, now);
    PassKeeps(caps, idleSecs, t, order, now);
    PassSweeps(caps, idleSecs, t, order, now);
    NotYetSwept(idleSecs, t, Named(order), src, now, Pass(idleSecs, t, order, now));
    HoldsSlot(caps, Pass(idleSecs, t, order, now), src);
  }

  lemma HoldsSlot(caps: Caps, t: Table, src: Src)
    requires TableInv(caps, t)
    ensures src in t.sessions ==>
              && t.sessions[src] in t.objects && t.sessions[src] in t.who && t.who[t.sessions[src]] == src.ip
              && Sound(caps, t.ledger, t.held) && src.ip in t.held
  {
    if src in t.sessions {
      Give(t.held, t.who, t.sessions[src]);
    }
  }
}
