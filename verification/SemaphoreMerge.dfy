/** Two calls of add_permits for every mix of request sizes: which single call they amount to, and when
    their order makes no difference. */
module SemaphoreMerge {
  import opened Basics
  import opened SemaphoreModel
  import opened SemaphoreGrants

  lemma MisfitAtOnce(s: Sem, n: nat)
    requires WellQueued(s) && (n == 0 || s.queue == [] || Need(s, 0) > n)
    ensures Misfit(s, n) == if n == 0 || s.queue == [] then 0 else Front(s).wants - 2 * (Front(s).permits + n)
  {
    PrefixZero(s, n);
  }

  lemma GrantShortens(s: Sem)
    requires WellQueued(s) && s.queue != []
    ensures |Grant(s).queue| < |s.queue|
  {
  }

  // Nobody has collected anything, and the pool is empty.
  predicate Untaken(s: Sem)
    requires WellQueued(s)
  {
    s.permits == 0 && (s.queue != [] ==> Front(s).permits == 0)
  }

  lemma {:induction false} MisfitBounds(s: Sem, n: nat)
    requires WellQueued(s) && Untaken(s)
    ensures n + Misfit(s, n) >= 0 && Misfit(s, n) <= Ahead(s, |s.queue|)
    decreases |s.queue|
  {
    hide WellQueued, Misfit;
    if n == 0 || s.queue == [] {
      MisfitAtOnce(s, n);
    } else {
      AheadMonotone(s, 1, |s.queue|);
      assert Ahead(s, 1) == Ahead(s, 0) + Need(s, 0);
      if n < Need(s, 0) {
        MisfitAtOnce(s, n);
      } else {
        DriftAfterGrant(s, n);
        GrantedFrontStartsFresh(s);
        MisfitBounds(Grant(s), n - Need(s, 0));
        AheadAfterGrant(s, |s.queue|);
      }
    }
  }

  lemma TwiceAtFront(s: Sem, m: nat, a: nat)
    requires WellQueued(s) && Untaken(s) && s.queue != [] && 0 < m < Need(s, 0) && a > 0
    ensures AddPermits(AddPermits(s, m), a) == AddPermits(s, Need(s, 0) - m + a)
  {
    AddGrantsPart(s, m);
    var t, x := GrantPart(s, m), Need(s, 0) - m + a;
    if a < m {
      AddGrantsPart(t, a);
      AddGrantsPart(s, x);
      assert GrantPart(t, a).futs == GrantPart(s, x).futs;
    } else {
      AddGrants(t, a);
      AddGrants(s, x);
    }
  }

  // Where nobody has collected anything, two calls amount to one with the permits that the first one
  // creates on top.
  lemma {:induction false} TwiceIsOnce(s: Sem, m: nat, a: nat)
    requires WellQueued(s) && Untaken(s) && (a > 0 || m == 0)
    ensures m + a + Misfit(s, m) >= 0
    ensures AddPermits(AddPermits(s, m), a) == AddPermits(s, m + a + Misfit(s, m))
    decreases |s.queue|
  {
    hide WellQueued, Misfit, Grant, GrantPart, AddPermits, Front;
    MisfitBounds(s, m);
    if m == 0 {
      MisfitAtOnce(s, m);
      AddNothing(s);
    } else if s.queue == [] {
      MisfitAtOnce(s, m);
      ToPoolTwice(s, m, a);
    } else if m < Need(s, 0) {
      MisfitAtOnce(s, m);
      FrontIsUntaken(s);
      TwiceAtFront(s, m, a);
    } else {
      DriftAfterGrant(s, m);
      GrantedFrontStartsFresh(s);
      GrantShortens(s);
      MisfitBounds(Grant(s), m - Need(s, 0));
      AddGrants(s, m);
      AddGrants(s, m + a + Misfit(s, m));
      TwiceIsOnce(Grant(s), m - Need(s, 0), a);
    }
  }

  lemma FrontIsUntaken(s: Sem)
    requires WellQueued(s) && Untaken(s) && s.queue != []
    ensures Front(s).permits == 0 && Front(s).wants == Need(s, 0)
  {
  }

  lemma ToPoolTwice(s: Sem, a: nat, b: nat)
    requires WellQueued(s) && s.queue == []
    ensures AddPermits(AddPermits(s, a), b) == AddPermits(s, a + b)
  {
    AddToPool(s, a);
    AddToPool(s, a + b);
    AddToPool(s.(permits := SatAdd(s.permits, a)), b);
  }

  lemma AmountsDecide(s: Sem, x: nat, y: nat)
    requires WellQueued(s) && Untaken(s)
    requires x <= USIZE_MAX + Ahead(s, |s.queue|) && y <= USIZE_MAX + Ahead(s, |s.queue|)
    ensures AddPermits(s, x) == AddPermits(s, y) <==> x == y
  {
    if x < y {
      DifferentAmountsDiffer(s, x, y);
    } else if y < x {
      DifferentAmountsDiffer(s, y, x);
    }
  }

  // ---------- The order of two calls ----------

  // Both calls complete the front waiter.
  lemma OrderAfterGrants(s: Sem, a: nat, b: nat)
    requires WellQueued(s) && s.queue != [] && Need(s, 0) <= a && Need(s, 0) <= b && a + b <= USIZE_MAX
    ensures AddPermits(AddPermits(s, a), b) == AddPermits(AddPermits(s, b), a) <==> Misfit(s, a) == Misfit(s, b)
  {
    hide WellQueued, Misfit, Grant, AddPermits, Front;
    var g, x, y := Grant(s), a - Need(s, 0), b - Need(s, 0);
    GrantedFrontStartsFresh(s);
    assert WellQueued(g) && Untaken(g);
    AddGrants(s, a);
    AddGrants(s, b);
    DriftAfterGrant(s, a);
    DriftAfterGrant(s, b);
    MisfitBounds(g, x);
    MisfitBounds(g, y);
    TwiceIsOnce(g, x, b);
    TwiceIsOnce(g, y, a);
    AmountsDecide(g, x + b + Misfit(g, x), y + a + Misfit(g, y));
  }

  // Only the second one does.
  lemma OrderAtFront(s: Sem, a: nat, b: nat)
    requires WellQueued(s) && s.queue != [] && 0 < a < Need(s, 0) <= b && a + b <= USIZE_MAX
    ensures AddPermits(AddPermits(s, a), b) == AddPermits(AddPermits(s, b), a) <==> Misfit(s, a) == Misfit(s, b)
  {
    hide WellQueued, Misfit, Grant, AddPermits, Front, GrantPart;
    var g, t, y := Grant(s), GrantPart(s, a), b - Need(s, 0);
    GrantedFrontStartsFresh(s);
    NeedIs(s);
    AddGrantsPart(s, a);
    PartKeepsQueue(s, a);
    AddGrants(s, b);
    MisfitAtOnce(s, a);
    DriftAfterGrant(s, b);
    MisfitBounds(g, y);
    TwiceIsOnce(g, y, a);
    if Need(t, 0) <= b {
      AddGrants(t, b);
      AmountsDecide(g, b - Need(t, 0), y + a + Misfit(g, y));
    } else {
      PartKeepsQueue(t, b);
      QueueOnlyShrinks(g, y);
      QueueOnlyShrinks(AddPermits(g, y), a);
      GrantShortens(s);
    }
  }

  lemma NeedIs(s: Sem)
    requires WellQueued(s) && s.queue != []
    ensures Need(s, 0) == Front(s).wants - Front(s).permits && Front(s).permits < Front(s).wants
  {
    assert CanReceive(s, s.queue[0]);
  }

  lemma PartKeepsQueue(s: Sem, n: nat)
    requires WellQueued(s) && s.queue != [] && 0 < n < Need(s, 0)
    ensures AddPermits(s, n).queue == s.queue && GrantPart(s, n).queue == s.queue
  {
    AddGrantsPart(s, n);
  }

  // Neither does.
  lemma OrderOfParts(s: Sem, a: nat, b: nat)
    requires WellQueued(s) && s.queue != [] && 0 < a < Need(s, 0) && 0 < b < Need(s, 0)
    ensures AddPermits(AddPermits(s, a), b) == AddPermits(AddPermits(s, b), a) <==> Misfit(s, a) == Misfit(s, b)
  {
    hide WellQueued, Misfit, Grant, AddPermits;
    MisfitAtOnce(s, a);
    MisfitAtOnce(s, b);
    AddGrantsPart(s, a);
    AddGrantsPart(s, b);
    PartKeepsQueue(s, a);
    PartKeepsQueue(s, b);
    var x, y := GrantPart(s, a), GrantPart(s, b);
    if a == b {
    } else if Need(x, 0) <= b {
      GrantDiffers(y, x, a, b);
    } else if Need(y, 0) <= a {
      GrantDiffers(x, y, b, a);
    } else {
      BothPartsDiffer(x, y, b, a);
    }
  }

  // Two calls can be swapped exactly when one of them adds nothing or their misfits are the same.
  lemma AddsCommute(s: Sem, a: nat, b: nat)
    requires WellQueued(s) && a + b <= USIZE_MAX
    ensures AddPermits(AddPermits(s, a), b) == AddPermits(AddPermits(s, b), a)
            <==> a == 0 || b == 0 || Misfit(s, a) == Misfit(s, b)
  {
    hide WellQueued, Misfit, AddPermits;
    if a == 0 || b == 0 {
      AddNothing(s);
      AddNothing(AddPermits(s, a + b));
    } else if s.queue == [] {
      ToPoolTwice(s, a, b);
      ToPoolTwice(s, b, a);
      MisfitAtOnce(s, a);
      MisfitAtOnce(s, b);
    } else if Need(s, 0) <= a && Need(s, 0) <= b {
      OrderAfterGrants(s, a, b);
    } else if Need(s, 0) <= b {
      OrderAtFront(s, a, b);
    } else if Need(s, 0) <= a {
      OrderAtFront(s, b, a);
    } else {
      OrderOfParts(s, a, b);
    }
  }
}
