/** What one call of add_permits does: the loop is a greedy hand-out along the queue, and the exact
    conditions under which it neither creates nor loses permits and under which calls can be merged. */
module SemaphoreGrants {
  import opened Basics
  import opened SemaphoreModel

  // ---------- The greedy hand-out in closed form ----------

  // The permits that the first k waiters miss together.
  function Ahead(s: Sem, k: nat): nat
    requires WellQueued(s) && k <= |s.queue|
  {
    if k == 0 then 0 else Ahead(s, k - 1) + Need(s, k - 1)
  }

  // k is the length of the longest prefix of the queue whose total need is at most n.
  predicate LongestPrefix(s: Sem, n: nat, k: nat)
    requires WellQueued(s)
  {
    && k <= |s.queue|
    && Ahead(s, k) <= n
    && (k < |s.queue| ==> n < Ahead(s, k + 1))
  }

  function PrefixFrom(s: Sem, n: nat, k: nat): (r: nat)
    requires WellQueued(s) && k <= |s.queue| && Ahead(s, k) <= n
    ensures LongestPrefix(s, n, r)
    decreases |s.queue| - k
  {
    if k == |s.queue| || Ahead(s, k + 1) > n then k else PrefixFrom(s, n, k + 1)
  }

  function Prefix(s: Sem, n: nat): (k: nat)
    requires WellQueued(s)
    ensures LongestPrefix(s, n, k)
  {
    PrefixFrom(s, n, 0)
  }

  // The permits left for the first waiter that cannot be completed, or for the pool.
  function Rest(s: Sem, n: nat): nat
    requires WellQueued(s)
  {
    n - Ahead(s, Prefix(s, n))
  }

  // Future `id` after the first k waiters are granted and the next one is given `rest`.
  function FutAfter(s: Sem, k: nat, rest: nat, id: nat): Fut
    requires WellQueued(s) && k <= |s.queue| && id < |s.futs|
    requires k < |s.queue| ==> rest < Need(s, k)
  {
    if id in s.queue[..k] then s.futs[id].(permits := s.futs[id].wants, state := Woken)
    else if k < |s.queue| && rest > 0 && id == s.queue[k] then s.futs[id].(permits := Need(s, k) - rest)
    else s.futs[id]
  }

  // The state in which exactly the first k waiters are granted, the next one is given `rest`, and
  // `rest` goes to the pool only if there is no next one.
  function HandOut(s: Sem, k: nat, rest: nat): Sem
    requires WellQueued(s) && k <= |s.queue|
    requires k < |s.queue| ==> rest < Need(s, k)
  {
    Sem(if k == |s.queue| then SatAdd(s.permits, rest) else s.permits,
        s.closed,
        s.queue[k..],
        seq(|s.futs|, id requires 0 <= id < |s.futs| => FutAfter(s, k, rest, id)),
        s.wakes + Wakeups(s)[..k])
  }

  lemma {:induction false} AheadMonotone(s: Sem, j: nat, k: nat)
    requires WellQueued(s) && j <= k <= |s.queue|
    ensures Ahead(s, j) <= Ahead(s, k)
    ensures j < k ==> Ahead(s, j) < Ahead(s, k)
    decreases k
  {
    if j < k {
      AheadMonotone(s, j, k - 1);
    }
  }

  lemma PrefixUnique(s: Sem, n: nat, j: nat, k: nat)
    requires WellQueued(s) && LongestPrefix(s, n, j) && LongestPrefix(s, n, k)
    ensures j == k
  {
    if j < k {
      AheadMonotone(s, j + 1, k);
    } else if k < j {
      AheadMonotone(s, k + 1, j);
    }
  }

  // After the front waiter is granted, every other waiter is one place further ahead.
  lemma {:induction false} AheadAfterGrant(s: Sem, k: nat)
    requires WellQueued(s) && 1 <= k <= |s.queue|
    ensures Ahead(s, k) == Need(s, 0) + Ahead(Grant(s), k - 1)
    ensures k < |s.queue| ==> Need(s, k) == Need(Grant(s), k - 1)
    decreases k
  {
    if k > 1 {
      AheadAfterGrant(s, k - 1);
    } else {
      assert Ahead(s, 1) == Ahead(s, 0) + Need(s, 0);
    }
  }

  lemma WakeupsAfterGrant(s: Sem, k: nat)
    requires WellQueued(s) && 1 <= k <= |s.queue|
    ensures Grant(s).wakes + Wakeups(Grant(s))[..k - 1] == s.wakes + Wakeups(s)[..k]
  {
    var g := Grant(s);
    forall j | 0 <= j < |g.queue|
      ensures Wakeups(g)[j] == Wakeups(s)[j + 1]
    {
      assert g.queue[j] == s.queue[j + 1] && s.queue[j + 1] != s.queue[0];
    }
    assert Wakeups(s)[..k] == [Wakeups(s)[0]] + Wakeups(g)[..k - 1];
    assert Wakeups(s)[0] == Wake(s.queue[0], Front(s).waker.value);
  }

  lemma FutAfterGrant(s: Sem, k: nat, rest: nat, id: nat)
    requires WellQueued(s) && 1 <= k <= |s.queue| && id < |s.futs|
    requires k < |s.queue| ==> rest < Need(s, k) && Need(s, k) == Need(Grant(s), k - 1)
    ensures FutAfter(Grant(s), k - 1, rest, id) == FutAfter(s, k, rest, id)
  {
    var q := s.queue;
    assert q[..k] == [q[0]] + Grant(s).queue[..k - 1];
    assert forall j :: 0 < j < |q| ==> q[j] != q[0];
    assert q[0] !in Grant(s).queue[..k - 1];
  }

  lemma HandOutAfterGrant(s: Sem, k: nat, rest: nat)
    requires WellQueued(s) && 1 <= k <= |s.queue|
    requires k < |s.queue| ==> rest < Need(s, k)
    ensures k < |s.queue| ==> rest < Need(Grant(s), k - 1)
    ensures HandOut(Grant(s), k - 1, rest) == HandOut(s, k, rest)
  {
    AheadAfterGrant(s, k);
    WakeupsAfterGrant(s, k);
    forall id | 0 <= id < |s.futs|
      ensures HandOut(Grant(s), k - 1, rest).futs[id] == HandOut(s, k, rest).futs[id]
    {
      FutAfterGrant(s, k, rest, id);
    }
  }

  lemma PrefixAfterGrant(s: Sem, n: nat)
    requires WellQueued(s) && s.queue != [] && Need(s, 0) <= n
    ensures Prefix(s, n) >= 1
    ensures Prefix(Grant(s), n - Need(s, 0)) == Prefix(s, n) - 1
    ensures Rest(Grant(s), n - Need(s, 0)) == Rest(s, n)
  {
    hide WellQueued;
    var k := Prefix(s, n);
    assert Ahead(s, 1) == Ahead(s, 0) + Need(s, 0);
    AheadAfterGrant(s, 1);
    AheadAfterGrant(s, k);
    if k < |s.queue| { AheadAfterGrant(s, k + 1); }
    PrefixUnique(Grant(s), n - Need(s, 0), Prefix(Grant(s), n - Need(s, 0)), k - 1);
  }

  lemma PrefixZero(s: Sem, n: nat)
    requires WellQueued(s) && (n == 0 || s.queue == [] || Need(s, 0) > n)
    ensures Prefix(s, n) == 0 && Rest(s, n) == n
  {
    if s.queue != [] {
      assert Ahead(s, 1) == Ahead(s, 0) + Need(s, 0);
    }
    PrefixUnique(s, n, Prefix(s, n), 0);
  }

  lemma AddStopsAtOnce(s: Sem, n: nat)
    requires WellQueued(s) && (n == 0 || s.queue == [] || Need(s, 0) > n)
    ensures AddPermits(s, n) == HandOut(s, 0, n)
  {
    assert s.wakes + Wakeups(s)[..0] == s.wakes;
  }

  // The loop's result is the greedy hand-out: exactly the longest prefix of waiters whose total
  // need is at most n is granted and woken in order, the next waiter takes what is left, and only
  // an empty queue lets permits reach the pool.
  lemma {:induction false} AddPermitsIsGreedy(s: Sem, n: nat)
    requires WellQueued(s)
    ensures AddPermits(s, n) == HandOut(s, Prefix(s, n), Rest(s, n))
    decreases |s.queue|
  {
    hide WellQueued, HandOut;
    if n == 0 || s.queue == [] || Need(s, 0) > n {
      PrefixZero(s, n);
      AddStopsAtOnce(s, n);
    } else {
      PrefixAfterGrant(s, n);
      AddPermitsIsGreedy(Grant(s), n - Need(s, 0));
      HandOutAfterGrant(s, Prefix(s, n), Rest(s, n));
    }
  }

  // ---------- The amount handed out ----------

  // How far the part that a call gives to a waiter is from fitting.  The program stores the number of
  // permits still missing where it should store the number collected; this is their difference.
  function Misfit(s: Sem, n: nat): int
    requires WellQueued(s)
  {
    var k, r := Prefix(s, n), Rest(s, n);
    if k < |s.queue| && r > 0 then s.futs[s.queue[k]].wants - 2 * (s.futs[s.queue[k]].permits + r) else 0
  }

  // The last permits of a call fit the waiter they are given to.
  predicate Fits(s: Sem, n: nat)
    requires WellQueued(s)
  {
    Misfit(s, n) == 0
  }

  function Holdings(futs: seq<Fut>): seq<nat> {
    seq(|futs|, i requires 0 <= i < |futs| => futs[i].permits)
  }

  // All permits in the pool and inside futures.
  function Outstanding(s: Sem): nat {
    s.permits + Sum(Holdings(s.futs))
  }

  // The permits that adding n creates (or, if negative, loses).
  function Drift(s: Sem, n: nat): int
    requires WellQueued(s)
  {
    var k, r := Prefix(s, n), Rest(s, n);
    if k == |s.queue| then SatAdd(s.permits, r) - s.permits - r
    else Misfit(s, n)
  }

  lemma HeldAfterUpdate(futs: seq<Fut>, id: nat, f: Fut)
    requires id < |futs|
    ensures Sum(Holdings(futs[id := f])) == Sum(Holdings(futs)) - futs[id].permits + f.permits
  {
    assert Holdings(futs[id := f]) == Holdings(futs)[id := f.permits];
    SumUpdate(Holdings(futs), id, f.permits);
  }

  lemma GrantOutstanding(s: Sem)
    requires WellQueued(s) && s.queue != []
    ensures Outstanding(Grant(s)) == Outstanding(s) + Need(s, 0)
  {
    var f := Front(s);
    HeldAfterUpdate(s.futs, s.queue[0], f.(permits := f.wants, state := Woken));
  }

  lemma LedgerStopsAtOnce(s: Sem, n: nat)
    requires WellQueued(s) && (n == 0 || s.queue == [] || Need(s, 0) > n)
    ensures Outstanding(AddPermits(s, n)) == Outstanding(s) + n + Drift(s, n)
  {
    PrefixZero(s, n);
    if n > 0 && s.queue != [] {
      HeldAfterUpdate(s.futs, s.queue[0], Front(s).(permits := Need(s, 0) - n));
    }
  }

  // The exact ledger of one call, whatever the waiters want.
  lemma {:induction false} AddPermitsLedger(s: Sem, n: nat)
    requires WellQueued(s)
    ensures Outstanding(AddPermits(s, n)) == Outstanding(s) + n + Drift(s, n)
    decreases |s.queue|
  {
    hide WellQueued, Drift, Outstanding;
    if n == 0 || s.queue == [] || Need(s, 0) > n {
      LedgerStopsAtOnce(s, n);
    } else {
      GrantOutstanding(s);
      AddPermitsLedger(Grant(s), n - Need(s, 0));
      DriftAfterGrant(s, n);
    }
  }

  lemma DriftAfterGrant(s: Sem, n: nat)
    requires WellQueued(s) && s.queue != [] && Need(s, 0) <= n
    ensures Drift(Grant(s), n - Need(s, 0)) == Drift(s, n)
    ensures Misfit(Grant(s), n - Need(s, 0)) == Misfit(s, n)
    ensures Fits(Grant(s), n - Need(s, 0)) == Fits(s, n)
  {
    PrefixAfterGrant(s, n);
    var k := Prefix(s, n);
    if k < |s.queue| {
      assert s.queue[k] != s.queue[0] && Grant(s).queue[k - 1] == s.queue[k];
    }
  }

  // A call neither creates nor loses permits exactly when its last permits fit and the pool does
  // not overflow.
  lemma AddPermitsConserves(s: Sem, n: usize)
    requires WellQueued(s)
    ensures Outstanding(AddPermits(s, n)) == Outstanding(s) + n
            <==> Fits(s, n) && (s.queue == [] ==> s.permits + n <= USIZE_MAX)
  {
    AddPermitsLedger(s, n);
    if s.queue == [] {
      PrefixZero(s, n);
    }
  }

  predicate WantsAtMostTwo(s: Sem) {
    forall id :: 0 <= id < |s.futs| ==> s.futs[id].wants <= 2
  }

  // Requests for one or two permits always fit.
  lemma SmallRequestsFit(s: Sem, n: nat)
    requires WellQueued(s) && WantsAtMostTwo(s)
    ensures Fits(s, n)
  {
    var k := Prefix(s, n);
    if k < |s.queue| {
      assert CanReceive(s, s.queue[k]);
      assert Ahead(s, k + 1) == Ahead(s, k) + Need(s, k);
    }
  }

  // ---------- Merging two calls ----------

  lemma AddGrants(s: Sem, n: nat)
    requires WellQueued(s) && s.queue != [] && Need(s, 0) <= n
    ensures AddPermits(s, n) == AddPermits(Grant(s), n - Need(s, 0))
  {
  }

  lemma AddNothing(s: Sem)
    requires WellQueued(s)
    ensures AddPermits(s, 0) == s
  {
  }

  lemma AddToPool(s: Sem, n: nat)
    requires WellQueued(s) && s.queue == []
    ensures AddPermits(s, n) == s.(permits := SatAdd(s.permits, n))
  {
  }

  // A waiter that was given a part misses what the program stored as collected, and granting it
  // afterwards leaves the state that granting it at once would have left.
  lemma AddGrantsPart(s: Sem, n: nat)
    requires WellQueued(s) && s.queue != [] && 0 < n < Need(s, 0)
    ensures AddPermits(s, n) == GrantPart(s, n)
    ensures Need(GrantPart(s, n), 0) == Front(s).permits + n
    ensures Grant(GrantPart(s, n)) == Grant(s)
  {
    assert Grant(GrantPart(s, n)).futs == Grant(s).futs;
  }

  lemma AddTwiceAtFront(s: Sem, a: nat, b: nat)
    requires WellQueued(s) && s.queue != [] && 0 < a < Need(s, 0) && 0 < b
    requires Front(s).wants == 2 * (Front(s).permits + a)
    ensures AddPermits(GrantPart(s, a), b) == AddPermits(s, a + b)
  {
    AddGrantsPart(s, a);
    var t := GrantPart(s, a);
    if b < Need(t, 0) {
      AddGrantsPart(t, b);
      AddGrantsPart(s, a + b);
      assert GrantPart(t, b).futs == GrantPart(s, a + b).futs;
    } else {
      AddGrants(t, b);
      AddGrants(s, a + b);
    }
  }

  lemma {:induction false} AddTwiceIsAddOnce(s: Sem, a: nat, b: nat)
    requires WellQueued(s) && Fits(s, a)
    ensures AddPermits(AddPermits(s, a), b) == AddPermits(s, a + b)
    decreases |s.queue|
  {
    hide WellQueued, Fits;
    if a == 0 || b == 0 {
    } else if s.queue == [] {
      assert SatAdd(SatAdd(s.permits, a), b) == SatAdd(s.permits, a + b);
    } else if Need(s, 0) > a {
      PartFits(s, a);
      AddTwiceAtFront(s, a, b);
    } else {
      DriftAfterGrant(s, a);
      AddTwiceIsAddOnce(Grant(s), a - Need(s, 0), b);
    }
  }

  lemma NothingLeftFits(s: Sem, n: nat)
    requires WellQueued(s) && (n == 0 || s.queue == [])
    ensures Fits(s, n)
  {
    PrefixZero(s, n);
  }

  lemma PartFits(s: Sem, n: nat)
    requires WellQueued(s) && s.queue != [] && 0 < n < Need(s, 0)
    ensures Fits(s, n) <==> Front(s).wants == 2 * (Front(s).permits + n)
  {
    PrefixZero(s, n);
  }

  // Among waiters that have collected nothing, different amounts always leave different states.
  lemma {:induction false} DifferentAmountsDiffer(s: Sem, x: nat, y: nat)
    requires WellQueued(s) && s.permits == 0 && x < y <= USIZE_MAX + Ahead(s, |s.queue|)
    requires s.queue != [] ==> Front(s).permits == 0
    ensures AddPermits(s, x) != AddPermits(s, y)
    decreases |s.queue|
  {
    hide WellQueued, AddPermits;
    if s.queue == [] {
      AddToPool(s, x);
      AddToPool(s, y);
    } else if Need(s, 0) <= x {
      AheadAfterGrant(s, |s.queue|);
      GrantedFrontStartsFresh(s);
      AddGrants(s, x);
      AddGrants(s, y);
      DifferentAmountsDiffer(Grant(s), x - Need(s, 0), y - Need(s, 0));
    } else if x == 0 {
      NothingDiffers(s, y);
    } else if Need(s, 0) > y {
      BothPartsDiffer(s, s, x, y);
    } else {
      GrantDiffers(s, s, x, y);
    }
  }

  lemma NothingDiffers(s: Sem, y: nat)
    requires WellQueued(s) && s.queue != [] && Front(s).permits == 0 && y > 0
    ensures AddPermits(s, 0) != AddPermits(s, y)
  {
    AddNothing(s);
    if Need(s, 0) <= y {
      AddGrants(s, y);
      QueueOnlyShrinks(Grant(s), y - Need(s, 0));
    } else {
      AddGrantsPart(s, y);
    }
  }

  lemma {:induction false} QueueOnlyShrinks(s: Sem, n: nat)
    requires WellQueued(s)
    ensures |AddPermits(s, n).queue| <= |s.queue|
    decreases |s.queue|
  {
    if n > 0 && s.queue != [] && Need(s, 0) <= n {
      QueueOnlyShrinks(Grant(s), n - Need(s, 0));
    }
  }

  // Adding a and then b leaves the same waiters, queue, pool and wake-ups as adding a + b at once
  // exactly when nothing is added the second time or the first call's last permits fit.
  lemma AddPermitsIsAdditive(s: Sem, a: nat, b: nat)
    requires WellQueued(s) && a + b <= USIZE_MAX
    ensures AddPermits(AddPermits(s, a), b) == AddPermits(s, a + b) <==> b == 0 || Fits(s, a)
  {
    if Fits(s, a) {
      AddTwiceIsAddOnce(s, a, b);
    } else if b > 0 {
      MisfitIsVisible(s, a, b);
    }
  }

  lemma {:induction false} MisfitIsVisible(s: Sem, a: nat, b: nat)
    requires WellQueued(s) && a + b <= USIZE_MAX && !Fits(s, a) && b > 0
    ensures AddPermits(AddPermits(s, a), b) != AddPermits(s, a + b)
    decreases |s.queue|
  {
    hide WellQueued, Fits;
    if a == 0 || s.queue == [] {
      NothingLeftFits(s, a);
    } else if Need(s, 0) > a {
      PartFits(s, a);
      AddGrantsPart(s, a);
      MisfitAtFront(s, a, b);
    } else {
      DriftAfterGrant(s, a);
      AddGrants(s, a);
      AddGrants(s, a + b);
      MisfitIsVisible(Grant(s), a - Need(s, 0), b);
    }
  }

  lemma GrantDiffers(s: Sem, t: Sem, x: nat, y: nat)
    requires WellQueued(s) && WellQueued(t) && s.queue == t.queue != []
    requires 0 < x < Need(s, 0) && Need(t, 0) <= y
    ensures AddPermits(s, x) != AddPermits(t, y)
  {
    AddGrantsPart(s, x);
    AddGrants(t, y);
    QueueOnlyShrinks(Grant(t), y - Need(t, 0));
  }

  lemma BothPartsDiffer(s: Sem, t: Sem, x: nat, y: nat)
    requires WellQueued(s) && WellQueued(t) && s.queue == t.queue != []
    requires 0 < x < Need(s, 0) && 0 < y < Need(t, 0) && Need(s, 0) - x != Need(t, 0) - y
    ensures AddPermits(s, x) != AddPermits(t, y)
  {
    assert GrantPart(s, x).futs[s.queue[0]].permits == Need(s, 0) - x;
    assert GrantPart(t, y).futs[s.queue[0]].permits == Need(t, 0) - y;
  }

  lemma MisfitAtFront(s: Sem, a: nat, b: nat)
    requires WellQueued(s) && a + b <= USIZE_MAX && b > 0 && s.queue != []
    requires 0 < a < Need(s, 0) && Front(s).wants != 2 * (Front(s).permits + a)
    ensures AddPermits(GrantPart(s, a), b) != AddPermits(s, a + b)
  {
    hide WellQueued, Grant, AddPermits;
    AddGrantsPart(s, a);
    var t := GrantPart(s, a);
    if Need(t, 0) <= b && Need(s, 0) <= a + b {
      AddGrants(t, b);
      AddGrants(s, a + b);
      GrantedFrontStartsFresh(s);
      if b - Need(t, 0) < a + b - Need(s, 0) {
        DifferentAmountsDiffer(Grant(s), b - Need(t, 0), a + b - Need(s, 0));
      } else {
        DifferentAmountsDiffer(Grant(s), a + b - Need(s, 0), b - Need(t, 0));
      }
    } else if Need(t, 0) <= b {
      GrantDiffers(s, t, a + b, b);
    } else if Need(s, 0) <= a + b {
      GrantDiffers(t, s, b, a + b);
    } else {
      BothPartsDiffer(t, s, b, a + b);
    }
  }

  lemma GrantedFrontStartsFresh(s: Sem)
    requires WellQueued(s) && s.queue != []
    ensures Grant(s).permits == 0
    ensures Grant(s).queue != [] ==> Front(Grant(s)).permits == 0
  {
    if |s.queue| > 1 {
      assert s.queue[1] != s.queue[0];
    }
  }
}
