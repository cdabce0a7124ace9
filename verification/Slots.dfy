/** Which live task holds which limiter slot. */
module Slots {
  import opened Net

  type Owners = map<nat, IpAddr>

  function OwnedBy(who: Owners, ip: IpAddr): set<nat> {
    set id | id in who && who[id] == ip
  }

  /** The multiset of slots is exactly the owners' addresses. */
  ghost predicate Matches(held: multiset<IpAddr>, who: Owners) {
    && |held| == |who|
    && forall ip :: held[ip] == |OwnedBy(who, ip)|
  }

  lemma OwnedAfterTake(who: Owners, id: nat, ip: IpAddr, other: IpAddr)
    requires id !in who
    ensures |OwnedBy(who[id := ip], other)| == |OwnedBy(who, other)| + if other == ip then 1 else 0
  {
    assert OwnedBy(who[id := ip], other) == OwnedBy(who, other) + if other == ip then {id} else {};
  }

  lemma OwnedAfterGive(who: Owners, id: nat, other: IpAddr)
    requires id in who
    ensures |OwnedBy(who - {id}, other)| == |OwnedBy(who, other)| - if other == who[id] then 1 else 0
  {
    assert OwnedBy(who - {id}, other) == OwnedBy(who, other) - {id};
    assert id in OwnedBy(who, other) <==> other == who[id];
  }

  lemma Take(held: multiset<IpAddr>, who: Owners, id: nat, ip: IpAddr)
    requires Matches(held, who) && id !in who
    ensures Matches(held + multiset{ip}, who[id := ip])
  {
    assert |who[id := ip]| == |who| + 1 by {
      assert who[id := ip].Keys == who.Keys + {id};
    }
    forall a ensures (held + multiset{ip})[a] == |OwnedBy(who[id := ip], a)| {
      OwnedAfterTake(who, id, ip, a);
    }
  }

  lemma Give(held: multiset<IpAddr>, who: Owners, id: nat)
    requires Matches(held, who) && id in who
    ensures who[id] in held
    ensures Matches(held - multiset{who[id]}, who - {id})
  {
    assert |who - {id}| == |who| - 1 by {
      assert (who - {id}).Keys == who.Keys - {id};
    }
    OwnedAfterGive(who, id, who[id]);
    forall a ensures (held - multiset{who[id]})[a] == |OwnedBy(who - {id}, a)| {
      OwnedAfterGive(who, id, a);
    }
  }
}
