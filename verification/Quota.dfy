/** Weighted admission per realm over a fixed-capacity shared pool: counters that are bumped in
    the same place a unit is taken or given back, so that they cannot drift. */
module RealmQuota {
  import opened Options

  type Realm = nat

  const MAX_TRACKED_REALMS: nat := 1024
  const DEFAULT_WATERMARK_PERCENT: nat := 70

  /** One more unit held; untracked realms are never counted. */
  function WithOne(held: multiset<Realm>, tracked: nat, realm: Realm): multiset<Realm> {
    if realm < tracked then held + multiset{realm} else held
  }

  /** The same for several units at once. */
  function WithMany(held: multiset<Realm>, tracked: nat, realm: Realm, units: nat): multiset<Realm> {
    if realm < tracked then held[realm := held[realm] + units] else held
  }

  lemma WithManyAdds(held: multiset<Realm>, tracked: nat, realm: Realm, units: nat, more: nat)
    ensures WithMany(WithMany(held, tracked, realm, units), tracked, realm, more) == WithMany(held, tracked, realm, units + more)
    ensures WithMany(held, tracked, realm, 1) == WithOne(held, tracked, realm) && WithMany(held, tracked, realm, 0) == held
  {
  }

  /** One unit given back; a realm that holds nothing has nothing to give. */
  function WithoutOne(held: multiset<Realm>, realm: Realm): multiset<Realm> {
    held - multiset{realm}
  }

  /** The realms holding at least one unit. */
  function Active(held: multiset<Realm>): set<Realm> {
    set r | r in held
  }

  /** The admission rule on the abstract state: free below the watermark, fair shares above it. */
  function Admits(held: multiset<Realm>, tracked: nat, capacity: nat, watermark: nat, realm: Realm): bool {
    || realm >= tracked
    || |held| * 100 < capacity * watermark
    || held[realm] < capacity / Max(|Active(held)|, 1)
  }

  lemma {:induction false} ActiveAtMostHeld(held: multiset<Realm>)
    ensures |Active(held)| <= |held|
  {
    if held != multiset{} {
      var r :| r in held;
      var rest := held[r := 0];
      ActiveAtMostHeld(rest);
      assert Active(held) == Active(rest) + {r};
      assert held == rest + multiset{}[r := held[r]];
    }
  }

  lemma ActiveGrows(held: multiset<Realm>, r: Realm)
    ensures |Active(held + multiset{r})| == |Active(held)| + if r in held then 0 else 1
  {
    assert Active(held + multiset{r}) == Active(held) + {r};
    assert r in held <==> r in Active(held);
  }

  lemma ActiveShrinks(held: multiset<Realm>, r: Realm)
    requires r in held
    ensures 0 < |held| && 0 < |Active(held)|
    ensures |Active(held - multiset{r})| == |Active(held)| - if held[r] == 1 then 1 else 0
  {
    assert r in Active(held);
    if held[r] == 1 {
      assert Active(held - multiset{r}) == Active(held) - {r};
    } else {
      assert Active(held - multiset{r}) == Active(held);
    }
  }

  /** A realm that holds nothing is never refused while the pool is not over capacity. */
  lemma NewcomerNeverRefused(held: multiset<Realm>, tracked: nat, capacity: nat, watermark: nat, realm: Realm)
    requires |held| <= capacity && 0 < capacity
    requires realm !in held
    ensures Admits(held, tracked, capacity, watermark, realm)
  {
    ActiveAtMostHeld(held);
    ShareIsPositive(capacity, Max(|Active(held)|, 1));
  }

  lemma ShareIsPositive(capacity: nat, parts: nat)
    requires 0 < parts <= capacity
    ensures capacity / parts >= 1
  {
  }

  /** Only a realm at or above its fair share is refused, and only above the watermark. */
  lemma RefusalIsEarned(held: multiset<Realm>, tracked: nat, capacity: nat, watermark: nat, realm: Realm)
    requires !Admits(held, tracked, capacity, watermark, realm)
    requires |held| <= capacity && 0 < capacity
    ensures realm in held && |held| * 100 >= capacity * watermark
    ensures 0 < |Active(held)| && held[realm] >= capacity / |Active(held)|
  {
    if realm !in held {
      NewcomerNeverRefused(held, tracked, capacity, watermark, realm);
    }
    assert realm in Active(held);
  }

  /** One admission, read at its own moment: the pool was still below the watermark, or the realm is
      within the share that the realms active just before leave it. */
  lemma AdmittedUnitStaysWithinShare(held: multiset<Realm>, tracked: nat, capacity: nat, watermark: nat, realm: Realm)
    requires Admits(held, tracked, capacity, watermark, realm) && realm < tracked
    ensures var next := held + multiset{realm};
            || (|next| - 1) * 100 < capacity * watermark
            || next[realm] <= capacity / Max(|Active(held)|, 1)
  {
  }

  /** A batch is judged once, before its first unit: admitted, it leaves the realm at most its size minus
      one past the share, unless the pool was still below the watermark. */
  lemma AdmittedBatchOvershootsLittle(held: multiset<Realm>, tracked: nat, capacity: nat, watermark: nat, realm: Realm, units: nat)
    requires Admits(held, tracked, capacity, watermark, realm) && realm < tracked && units > 0
    ensures || |held| * 100 < capacity * watermark
            || WithMany(held, tracked, realm, units)[realm] <= capacity / Max(|Active(held)|, 1) + (units - 1)
  {
  }

  // ---- over runs ----

  /** A request for some units, judged once, or one unit given back. */
  datatype Request = Ask(realm: Realm, units: nat) | GiveBack(realm: Realm)

  function Serve(held: multiset<Realm>, tracked: nat, capacity: nat, watermark: nat, q: Request): multiset<Realm> {
    match q
    case Ask(r, n) => if Admits(held, tracked, capacity, watermark, r) then WithMany(held, tracked, r, n) else held
    case GiveBack(r) => WithoutOne(held, r)
  }

  function ServeAll(held: multiset<Realm>, tracked: nat, capacity: nat, watermark: nat, qs: seq<Request>): multiset<Realm>
    decreases |qs|
  {
    if qs == [] then held
    else ServeAll(Serve(held, tracked, capacity, watermark, qs[0]), tracked, capacity, watermark, qs[1..])
  }

  /** `realm` asks for at most `batch` units at a time, and whenever it asks at or above the watermark, at
      least `k` realms are active. */
  predicate Crowded(held: multiset<Realm>, tracked: nat, capacity: nat, watermark: nat, qs: seq<Request>, realm: Realm, k: nat, batch: nat)
    decreases |qs|
  {
    qs != [] ==>
      && Restrained(held, capacity, watermark, qs[0], realm, k, batch)
      && Crowded(Serve(held, tracked, capacity, watermark, qs[0]), tracked, capacity, watermark, qs[1..], realm, k, batch)
  }

  predicate Restrained(held: multiset<Realm>, capacity: nat, watermark: nat, q: Request, realm: Realm, k: nat, batch: nat) {
    q.Ask? && q.realm == realm ==>
      1 <= q.units <= batch && (|held| * 100 >= capacity * watermark ==> |Active(held)| >= k)
  }

  /** `n` units are within the watermark's first crossing or a `k`-th of the pool, give or take a batch. */
  predicate WithinShare(n: nat, capacity: nat, watermark: nat, k: nat, batch: nat)
    requires k > 0
  {
    (n - batch) * 100 < capacity * watermark || n <= capacity / k + (batch - 1)
  }

  /** Over any run: while `k` realms compete above the watermark, no realm gets past the larger of the
      watermark and a `k`-th of the pool by more than a batch less one unit. The share of a realm may
      shrink below what it already holds, when others become active; it is then refused, not evicted. */
  lemma {:induction false} CrowdedRunStaysWithinShare(held: multiset<Realm>, tracked: nat, capacity: nat, watermark: nat,
                                                      qs: seq<Request>, realm: Realm, k: nat, batch: nat)
    requires realm < tracked && k > 0 && Crowded(held, tracked, capacity, watermark, qs, realm, k, batch)
    requires WithinShare(held[realm], capacity, watermark, k, batch)
    ensures WithinShare(ServeAll(held, tracked, capacity, watermark, qs)[realm], capacity, watermark, k, batch)
    decreases |qs|
  {
    if qs != [] {
      ServedStaysWithinShare(held, tracked, capacity, watermark, qs[0], realm, k, batch);
      hide Serve, WithinShare, Restrained;
      CrowdedRunStaysWithinShare(Serve(held, tracked, capacity, watermark, qs[0]), tracked, capacity, watermark, qs[1..], realm, k, batch);
    }
  }

  lemma ServedStaysWithinShare(held: multiset<Realm>, tracked: nat, capacity: nat, watermark: nat, q: Request, realm: Realm, k: nat,
                               batch: nat)
    requires realm < tracked && k > 0 && WithinShare(held[realm], capacity, watermark, k, batch)
    requires Restrained(held, capacity, watermark, q, realm, k, batch)
    ensures WithinShare(Serve(held, tracked, capacity, watermark, q)[realm], capacity, watermark, k, batch)
  {
    var next := Serve(held, tracked, capacity, watermark, q);
    if q.Ask? && q.realm == realm && Admits(held, tracked, capacity, watermark, realm) {
      AdmittedBatchOvershootsLittle(held, tracked, capacity, watermark, realm, q.units);
      HoldingIsPart(held, realm);
      if |held| * 100 >= capacity * watermark {
        SharesShrink(capacity, k, Max(|Active(held)|, 1));
      }
    } else {
      assert next[realm] <= held[realm];
    }
  }

  lemma HoldingIsPart(held: multiset<Realm>, realm: Realm)
    ensures held[realm] <= |held|
  {
    var others := held[realm := 0];
    assert held == others + multiset{}[realm := held[realm]];
  }

  lemma SharesShrink(capacity: nat, k: nat, n: nat)
    requires 0 < k <= n
    ensures capacity / n <= capacity / k
  {
    var a := capacity / n;
    MulMonotone(a, k, n);
    QuotientAtLeast(capacity, k, a);
  }

  lemma MulMonotone(a: nat, k: nat, n: nat)
    requires k <= n
    ensures a * k <= a * n
  {
  }

  lemma QuotientAtLeast(x: nat, k: nat, a: nat)
    requires 0 < k && a * k <= x
    ensures a <= x / k
  {
    assert x == k * (x / k) + x % k;
    if x / k < a {
      MulMonotone(k, x / k + 1, a);
      assert false;
    }
  }

  class Quota {
    const counts: array<nat>
    const capacity: nat
    const watermark: nat
    var total: nat
    var activeRealms: nat
    /** The units currently held, by realm; untracked realms are never counted. */
    ghost var Held: multiset<Realm>

    ghost predicate Valid()
      reads this, counts
    {
      && 0 < counts.Length && 0 < capacity
      && (forall r :: r in Held ==> r < counts.Length)
      && (forall r :: 0 <= r < counts.Length ==> counts[r] == Held[r])
      && total == |Held| && activeRealms == |Active(Held)|
    }

    constructor (maxRealms: nat, cap: nat, percent: nat)
      ensures Valid() && fresh(counts) && Held == multiset{}
      ensures counts.Length == Max(maxRealms, 1) && capacity == Max(cap, 1) && watermark == Min(percent, 100)
    {
      counts := new nat[Max(maxRealms, 1)](_ => 0);
      capacity := Max(cap, 1);
      watermark := Min(percent, 100);
      total, activeRealms := 0, 0;
      Held := multiset{};
      new;
      assert Active(Held) == {};
    }

    method Allows(realm: Realm) returns (ok: bool)
      requires Valid()
      ensures ok <==> Admits(Held, counts.Length, capacity, watermark, realm)
    {
      if realm >= counts.Length {
        return true;
      }
      if total * 100 < capacity * watermark {
        return true;
      }
      var share := capacity / Max(activeRealms, 1);
      return counts[realm] < share;
    }

    method Acquire(realm: Realm)
      requires Valid()
      modifies this, counts
      ensures Valid()
      ensures Held == WithOne(old(Held), counts.Length, realm)
    {
      if realm >= counts.Length {
        return;
      }
      ActiveGrows(Held, realm);
      if counts[realm] == 0 {
        activeRealms := activeRealms + 1;
      }
      counts[realm] := counts[realm] + 1;
      total := total + 1;
      Held := Held + multiset{realm};
    }

    /** Giving back for a realm that holds nothing changes nothing. */
    method Release(realm: Realm)
      requires Valid()
      modifies this, counts
      ensures Valid() && Held == WithoutOne(old(Held), realm)
    {
      if realm >= counts.Length {
        assert Held - multiset{realm} == Held;
        return;
      }
      if counts[realm] == 0 {
        assert Held - multiset{realm} == Held;
        return;
      }
      ActiveShrinks(Held, realm);
      counts[realm] := counts[realm] - 1;
      total := total - 1;
      Held := Held - multiset{realm};
      if counts[realm] == 0 {
        activeRealms := activeRealms - 1;
      }
    }
  }
}
