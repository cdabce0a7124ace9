/** Connection admission limits: `src/limits.rs`.

    `Ledger` is the data behind the mutex, `TryAcquire` and `Release` its two critical
    sections. The class at the end is the in-place form, tied to those functions. The live
    `Guard`s are the multiset of the addresses they were taken for. */
module Limits {
  import opened Machine
  import opened Net

  datatype Caps = Caps(maxTotal: u32, maxPerIp: u32)
  datatype Reject = Total | PerIp
  datatype IpStat = IpStat(count: u32, warned: bool)
  datatype Ledger = Ledger(total: u32, perIp: map<IpAddr, IpStat>, totalWarned: bool)
  datatype Outcome = Admitted(warnTotal: bool, warnIp: bool) | Rejected(reason: Reject)

  type Guards = multiset<IpAddr>

  const EMPTY := Ledger(0, map[], false)

  /** 64-bit wrap-around. */
  function Wrap64(x: nat): u64 {
    if x <= U64_MAX then x else x % (U64_MAX + 1)
  }

  /** Both products are computed in 64 bits. */
  predicate Reached90(used: u32, cap: u32) {
    Wrap64(used * 10) >= Wrap64(cap * 9)
  }

  /** `saturating_sub(1)`. */
  function Dec(x: u32): u32 {
    if x == 0 then 0 else x - 1
  }

  /** The comparison is exact over the whole 32-bit range. */
  lemma Reached90IsExact(used: u32, cap: u32)
    ensures Reached90(used, cap) <==> used as real >= 0.9 * cap as real
  {
    assert (used * 10) as real == 10.0 * used as real && (cap * 9) as real == 9.0 * cap as real;
  }

  function Count(s: Ledger, ip: IpAddr): u32 {
    if ip in s.perIp then s.perIp[ip].count else 0
  }

  function Verdict(caps: Caps, s: Ledger, ip: IpAddr): Option<Reject> {
    if caps.maxTotal > 0 && s.total >= caps.maxTotal then Some(Total)
    else if caps.maxPerIp > 0 && Count(s, ip) >= caps.maxPerIp then Some(PerIp)
    else None
  }

  /** What the two `+= 1` need; `Sound` gives it unless 2^32 - 1 guards are live. */
  predicate NoOverflow(s: Ledger, ip: IpAddr) {
    s.total < U32_MAX && Count(s, ip) < U32_MAX
  }

  function TryAcquire(caps: Caps, s: Ledger, ip: IpAddr): (Ledger, Outcome)
    requires NoOverflow(s, ip)
  {
    match Verdict(caps, s, ip)
    case Some(reason) => (s, Rejected(reason))
    case None =>
      var total := s.total + 1;
      var warnTotal := !s.totalWarned && caps.maxTotal > 0 && Reached90(total, caps.maxTotal);
      var stat := if ip in s.perIp then s.perIp[ip] else IpStat(0, false);
      var count := stat.count + 1;
      var warnIp := !stat.warned && caps.maxPerIp > 0 && Reached90(count, caps.maxPerIp);
      (Ledger(total, s.perIp[ip := IpStat(count, stat.warned || warnIp)], s.totalWarned || warnTotal),
       Admitted(warnTotal, warnIp))
  }

  function Release(s: Ledger, ip: IpAddr): Ledger {
    if ip !in s.perIp then s.(total := Dec(s.total))
    else
      var count := Dec(s.perIp[ip].count);
      s.(total := Dec(s.total),
         perIp := if count == 0 then s.perIp - {ip} else s.perIp[ip := s.perIp[ip].(count := count)])
  }

  // ── Refinement against the live guards ────────────────────────────────────

  /** The ledger counts the live guards, in total and per address, with no idle entries. */
  ghost predicate Tracks(s: Ledger, guards: Guards) {
    && s.total == |guards|
    && (forall ip :: Count(s, ip) == guards[ip])
    && (forall ip <- s.perIp :: s.perIp[ip].count > 0)
  }

  ghost predicate WithinCaps(caps: Caps, s: Ledger) {
    && (caps.maxTotal > 0 ==> s.total <= caps.maxTotal)
    && (caps.maxPerIp > 0 ==> forall ip <- s.perIp :: s.perIp[ip].count <= caps.maxPerIp)
  }

  /** An unset warning flag means the 90 % line has not been reached. */
  ghost predicate WarnsInTime(caps: Caps, s: Ledger) {
    && (caps.maxTotal > 0 && !s.totalWarned ==> !Reached90(s.total, caps.maxTotal))
    && (caps.maxPerIp > 0 ==>
        forall ip <- s.perIp :: !s.perIp[ip].warned ==> !Reached90(s.perIp[ip].count, caps.maxPerIp))
  }

  ghost predicate Sound(caps: Caps, s: Ledger, guards: Guards) {
    Tracks(s, guards) && WithinCaps(caps, s) && WarnsInTime(caps, s)
  }

  lemma PartFits(guards: Guards, ip: IpAddr)
    ensures guards[ip] <= |guards|
  {
    var part := multiset{}[ip := guards[ip]];
    assert guards == part + (guards - part);
  }

  /** Admission is decided by the live guards alone, the total cap first; a refusal changes
      nothing and an admission adds exactly the one guard. */
  lemma AcquireIsSound(caps: Caps, s: Ledger, guards: Guards, ip: IpAddr)
    requires Sound(caps, s, guards) && |guards| < U32_MAX
    ensures NoOverflow(s, ip)
    ensures var (s', out) := TryAcquire(caps, s, ip);
            && (out == Rejected(Total) <==> 0 < caps.maxTotal <= |guards|)
            && (out == Rejected(PerIp) <==>
                !(0 < caps.maxTotal <= |guards|) && 0 < caps.maxPerIp <= guards[ip])
            && (out.Rejected? ==> s' == s)
            && (out.Admitted? ==> Sound(caps, s', guards + multiset{ip}))
  {
    PartFits(guards, ip);
    assert Count(s, ip) == guards[ip];
  }

  /** Dropping a live guard removes exactly that guard; neither subtraction saturates. */
  lemma ReleaseIsSound(caps: Caps, s: Ledger, guards: Guards, ip: IpAddr)
    requires Sound(caps, s, guards) && ip in guards
    ensures s.total > 0 && Count(s, ip) > 0
    ensures Sound(caps, Release(s, ip), guards - multiset{ip})
  {
    PartFits(guards, ip);
    assert Count(s, ip) == guards[ip];
    var s' := Release(s, ip);
    if caps.maxTotal > 0 && !s.totalWarned {
      Reached90IsExact(s.total, caps.maxTotal);
      Reached90IsExact(s'.total, caps.maxTotal);
    }
    if caps.maxPerIp > 0 && ip in s'.perIp && !s'.perIp[ip].warned {
      Reached90IsExact(s.perIp[ip].count, caps.maxPerIp);
      Reached90IsExact(s'.perIp[ip].count, caps.maxPerIp);
    }
  }

  /** Acquire followed by drop of the same guard restores every count. */
  lemma DropUndoesAcquire(caps: Caps, s: Ledger, guards: Guards, ip: IpAddr, other: IpAddr)
    requires Sound(caps, s, guards) && |guards| < U32_MAX && Verdict(caps, s, ip) == None
    ensures NoOverflow(s, ip)
    ensures var after := Release(TryAcquire(caps, s, ip).0, ip);
            after.total == s.total && Count(after, other) == Count(s, other) && after.perIp.Keys == s.perIp.Keys
  {
    AcquireIsSound(caps, s, guards, ip);
  }

  // ── Whole histories ───────────────────────────────────────────────────────

  /** One line of the history: what a `try_acquire` answered, or whose guard was dropped and
      whether that was its address's last one. */
  datatype Entry =
    | Admit(ip: IpAddr, warnTotal: bool, warnIp: bool)
    | Refuse(ip: IpAddr, reason: Reject)
    | Drop(ip: IpAddr, last: bool)

  datatype World = World(ledger: Ledger, guards: Guards)

  /** The next entry is one the limiter really produces in world `w`. */
  predicate Happens(caps: Caps, w: World, e: Entry) {
    match e
    case Admit(ip, warnTotal, warnIp) =>
      && |w.guards| < U32_MAX && NoOverflow(w.ledger, ip)
      && TryAcquire(caps, w.ledger, ip).1 == Admitted(warnTotal, warnIp)
    case Refuse(ip, reason) =>
      && |w.guards| < U32_MAX && NoOverflow(w.ledger, ip)
      && TryAcquire(caps, w.ledger, ip).1 == Rejected(reason)
    case Drop(ip, last) =>
      && ip in w.guards
      && (last <==> ip !in Release(w.ledger, ip).perIp)
  }

  function After(caps: Caps, w: World, e: Entry): World
    requires Happens(caps, w, e)
  {
    match e
    case Admit(ip, _, _) => World(TryAcquire(caps, w.ledger, ip).0, w.guards + multiset{ip})
    case Refuse(ip, _) => World(TryAcquire(caps, w.ledger, ip).0, w.guards)
    case Drop(ip, _) => World(Release(w.ledger, ip), w.guards - multiset{ip})
  }

  /** The world after a history, if the history is one a fresh limiter can produce. */
  function Replay(caps: Caps, log: seq<Entry>): Option<World> {
    if log == [] then Some(World(EMPTY, multiset{}))
    else
      var e := log[|log| - 1];
      match Replay(caps, log[..|log| - 1])
      case None => None
      case Some(w) => if Happens(caps, w, e) then Some(After(caps, w, e)) else None
  }

  /** The total warning has been raised. */
  ghost predicate TotalRaised(log: seq<Entry>) {
    exists i :: 0 <= i < |log| && log[i].Admit? && log[i].warnTotal
  }

  /** `e` took the last guard of `ip`. */
  predicate Leaves(e: Entry, ip: IpAddr) {
    e.Drop? && e.ip == ip && e.last
  }

  /** `e` raised the warning for `ip`. */
  predicate Raises(e: Entry, ip: IpAddr) {
    e.Admit? && e.ip == ip && e.warnIp
  }

  /** Raised at `i`, and `ip` has held a guard ever since. */
  ghost predicate RaisedSince(log: seq<Entry>, i: int, ip: IpAddr)
    requires 0 <= i < |log|
  {
    Raises(log[i], ip) && forall k :: i < k < |log| ==> !Leaves(log[k], ip)
  }

  ghost predicate WarningStands(log: seq<Entry>, ip: IpAddr) {
    exists i :: 0 <= i < |log| && RaisedSince(log, i, ip)
  }

  lemma WarningStandsStep(before: seq<Entry>, e: Entry, ip: IpAddr)
    ensures WarningStands(before + [e], ip) <==> Raises(e, ip) || (WarningStands(before, ip) && !Leaves(e, ip))
  {
    var log := before + [e];
    if Raises(e, ip) {
      assert RaisedSince(log, |before|, ip);
    }
    if WarningStands(before, ip) && !Leaves(e, ip) {
      var i :| 0 <= i < |before| && RaisedSince(before, i, ip);
      assert RaisedSince(log, i, ip);
    }
    if WarningStands(log, ip) && !Raises(e, ip) {
      var i :| 0 <= i < |log| && RaisedSince(log, i, ip);
      assert log[i] == before[i];
      assert !Leaves(log[|before|], ip);
      assert forall k :: i < k < |before| ==> before[k] == log[k];
      assert RaisedSince(before, i, ip);
    }
  }

  /** Every world a history can reach is sound, and its flags say what the history says. */
  ghost predicate Faithful(caps: Caps, log: seq<Entry>, w: World) {
    && Sound(caps, w.ledger, w.guards)
    && (w.ledger.totalWarned <==> TotalRaised(log))
    && (forall ip <- w.ledger.perIp :: w.ledger.perIp[ip].warned <==> WarningStands(log, ip))
    && (forall ip :: ip !in w.ledger.perIp ==> !WarningStands(log, ip))
  }

  lemma {:induction false} HistoryIsFaithful(caps: Caps, log: seq<Entry>)
    requires Replay(caps, log).Some?
    ensures Faithful(caps, log, Replay(caps, log).value)
  {
    if log != [] {
      var before, e := log[..|log| - 1], log[|log| - 1];
      assert log == before + [e];
      HistoryIsFaithful(caps, before);
      FaithfulStep(caps, before, Replay(caps, before).value, e);
    }
  }

  lemma FaithfulStep(caps: Caps, before: seq<Entry>, w: World, e: Entry)
    requires Faithful(caps, before, w) && Happens(caps, w, e)
    ensures Faithful(caps, before + [e], After(caps, w, e))
  {
    var log, w' := before + [e], After(caps, w, e);
    match e {
      case Admit(ip, _, _) => AcquireIsSound(caps, w.ledger, w.guards, ip);
      case Refuse(_, _) =>
      case Drop(ip, _) => ReleaseIsSound(caps, w.ledger, w.guards, ip);
    }
    assert TotalRaised(log) <==> TotalRaised(before) || (e.Admit? && e.warnTotal) by {
      assert log[|before|] == e;
      if TotalRaised(before) {
        var i :| 0 <= i < |before| && before[i].Admit? && before[i].warnTotal;
        assert log[i] == before[i];
      }
    }
    forall ip ensures if ip in w'.ledger.perIp then w'.ledger.perIp[ip].warned <==> WarningStands(log, ip)
                      else !WarningStands(log, ip)
    {
      WarningStandsStep(before, e, ip);
    }
  }

  /** In any history, a rejection comes after the warning of the same layer: the total one at
      some earlier point, the per-address one within the address's present residency. */
  lemma WarnedBeforeRejected(caps: Caps, log: seq<Entry>, ip: IpAddr, reason: Reject)
    requires Replay(caps, log + [Refuse(ip, reason)]).Some?
    ensures reason == Total ==> TotalRaised(log)
    ensures reason == PerIp ==> WarningStands(log, ip)
  {
    assert (log + [Refuse(ip, reason)])[..|log|] == log;
    HistoryIsFaithful(caps, log);
  }

  /** A warning is raised at exactly the admissions that call for it: the count with the new guard
      has reached 90 % of the cap, and the warning has not been raised (for an address: not in
      its present residency). */
  lemma WarnedExactlyWhenDue(caps: Caps, log: seq<Entry>, e: Entry)
    requires Replay(caps, log + [e]).Some? && e.Admit?
    ensures var guards := Replay(caps, log + [e]).value.guards;
            && (e.warnTotal <==> caps.maxTotal > 0 && !TotalRaised(log)
                                 && |guards| as real >= 0.9 * caps.maxTotal as real)
            && (e.warnIp <==> caps.maxPerIp > 0 && !WarningStands(log, e.ip)
                              && guards[e.ip] as real >= 0.9 * caps.maxPerIp as real)
  {
    assert (log + [e])[..|log|] == log;
    HistoryIsFaithful(caps, log);
    var w := Replay(caps, log).value;
    AdmissionWarns(caps, w.ledger, w.guards, e);
  }

  lemma AdmissionWarns(caps: Caps, ledger: Ledger, guards: Guards, e: Entry)
    requires Sound(caps, ledger, guards) && e.Admit? && Happens(caps, World(ledger, guards), e)
    ensures e.warnTotal <==> caps.maxTotal > 0 && !ledger.totalWarned
                             && (|guards| + 1) as real >= 0.9 * caps.maxTotal as real
    ensures e.warnIp <==> caps.maxPerIp > 0 && !(e.ip in ledger.perIp && ledger.perIp[e.ip].warned)
                          && (guards[e.ip] + 1) as real >= 0.9 * caps.maxPerIp as real
  {
    assert Count(ledger, e.ip) == guards[e.ip];
    Reached90IsExact(ledger.total + 1, caps.maxTotal);
    Reached90IsExact(Count(ledger, e.ip) + 1, caps.maxPerIp);
  }

  /** In any history the total warning is raised at most once, and the warning for an address
      is raised again only after the address gave up its last guard. */
  lemma WarnedOnce(caps: Caps, log: seq<Entry>, i: int, j: int)
    requires Replay(caps, log).Some? && 0 <= i < j < |log| && log[i].Admit? && log[j].Admit?
    ensures !(log[i].warnTotal && log[j].warnTotal)
    ensures log[i].ip == log[j].ip && log[i].warnIp && log[j].warnIp ==>
              exists k :: i < k < j && Leaves(log[k], log[i].ip)
  {
    var before := log[..j];
    PrefixReplays(caps, log, j);
    HistoryIsFaithful(caps, before);
    assert before[i] == log[i];
    var ip := log[i].ip;
    if log[j].ip == ip && log[i].warnIp && log[j].warnIp {
      assert !WarningStands(before, ip);
      assert !RaisedSince(before, i, ip);
      var k :| i < k < j && Leaves(before[k], ip);
      assert Leaves(log[k], ip);
    }
  }

  lemma {:induction false} PrefixReplays(caps: Caps, log: seq<Entry>, j: nat)
    requires Replay(caps, log).Some? && j < |log|
    ensures Replay(caps, log[..j]).Some? && Happens(caps, Replay(caps, log[..j]).value, log[j])
  {
    var n := |log| - 1;
    if j < n {
      assert log[..n][..j] == log[..j];
      PrefixReplays(caps, log[..n], j);
    }
  }

  // ── In place ──────────────────────────────────────────────────────────────

  class ConnLimits {
    const caps: Caps
    var total: u32
    var perIp: map<IpAddr, IpStat>
    var totalWarned: bool
    ghost var guards: Guards

    ghost function View(): Ledger
      reads this
    {
      Ledger(total, perIp, totalWarned)
    }

    ghost predicate Valid()
      reads this
    {
      Sound(caps, View(), guards)
    }

    constructor (maxTotal: u32, maxPerIp: u32)
      ensures Valid() && guards == multiset{} && caps == Caps(maxTotal, maxPerIp)
    {
      caps := Caps(maxTotal, maxPerIp);
      total, perIp, totalWarned := 0, map[], false;
      guards := multiset{};
    }

    /** `try_acquire`. */
    method Acquire(src: IpAddr) returns (out: Outcome)
      requires Valid() && |guards| < U32_MAX
      modifies this
      ensures Valid()
      ensures NoOverflow(old(View()), src) && (View(), out) == TryAcquire(caps, old(View()), src)
      ensures guards == if out.Admitted? then old(guards) + multiset{src} else old(guards)
    {
      ghost var before, held := View(), guards;
      assert NoOverflow(before, src) by {
        AcquireIsSound(caps, before, held, src);
      }
      if caps.maxTotal > 0 && total >= caps.maxTotal {
        return Rejected(Total);
      }
      var stat := if src in perIp then perIp[src] else IpStat(0, false);
      if caps.maxPerIp > 0 && stat.count >= caps.maxPerIp {
        return Rejected(PerIp);
      }
      out := Admit(src, stat);
      assert (View(), out) == TryAcquire(caps, before, src);
      guards := held + multiset{src};
      AcquireIsSound(caps, before, held, src);
    }

    /** The part of `try_acquire` after both caps. */
    method Admit(src: IpAddr, stat: IpStat) returns (out: Outcome)
      requires stat == if src in perIp then perIp[src] else IpStat(0, false)
      requires NoOverflow(View(), src)
      modifies this`total, this`perIp, this`totalWarned
      ensures View().total == old(total) + 1 && out.Admitted?
      ensures out.warnTotal <==> !old(totalWarned) && caps.maxTotal > 0 && Reached90(total, caps.maxTotal)
      ensures totalWarned <==> old(totalWarned) || out.warnTotal
      ensures out.warnIp <==> !stat.warned && caps.maxPerIp > 0 && Reached90(stat.count + 1, caps.maxPerIp)
      ensures perIp == old(perIp)[src := IpStat(stat.count + 1, stat.warned || out.warnIp)]
    {
      total := total + 1;
      var warnTotal := !totalWarned && caps.maxTotal > 0 && Reached90(total, caps.maxTotal);
      totalWarned := totalWarned || warnTotal;
      var count := stat.count + 1;
      var warnIp := !stat.warned && caps.maxPerIp > 0 && Reached90(count, caps.maxPerIp);
      perIp := perIp[src := IpStat(count, stat.warned || warnIp)];
      out := Admitted(warnTotal, warnIp);
    }

    /** `Guard::drop`. */
    method DropGuard(src: IpAddr)
      requires Valid() && src in guards
      modifies this
      ensures Valid()
      ensures View() == Release(old(View()), src)
      ensures guards == old(guards) - multiset{src}
    {
      ReleaseIsSound(caps, View(), guards, src);
      total := Dec(total);
      if src in perIp {
        var stat := perIp[src];
        stat := stat.(count := Dec(stat.count));
        if stat.count == 0 {
          perIp := perIp - {src};
        } else {
          perIp := perIp[src := stat];
        }
      }
      guards := guards - multiset{src};
    }
  }
}
