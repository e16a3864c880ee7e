/** Cancelling a future against adding permits: the two can be swapped without any other future
    noticing, exactly when what the future is given and what it returns are the same. */
module SemaphoreCancel {
  import opened Basics
  import opened SemaphoreModel
  import opened SemaphoreGrants
  import opened SemaphoreMerge
  import opened SemaphoreRuns
  import opened SemaphoreWaiting
  import opened SemaphoreHistory

  // The waker calls made to futures other than i.
  function OtherWakes(w: seq<Wake>, i: nat): seq<Wake> {
    if w == [] then []
    else OtherWakes(w[..|w| - 1], i) + if w[|w| - 1].fut == i then [] else [w[|w| - 1]]
  }

  // Nobody but future i can tell the two states apart.
  predicate SameForOthers(x: Sem, y: Sem, i: nat) {
    && x.permits == y.permits && x.closed == y.closed && x.queue == y.queue
    && |x.futs| == |y.futs|
    && (forall j :: 0 <= j < |x.futs| && j != i ==> x.futs[j] == y.futs[j])
    && OtherWakes(x.wakes, i) == OtherWakes(y.wakes, i)
  }

  // The state once future i is gone, before what it held is added again.
  function Cancelled(s: Sem, i: nat): (r: Sem)
    requires Inv(s) && Live(s, i)
    ensures WellQueued(r)
  {
    DetachKeepsInv(s, i);
    Detach(s, i)
  }

  function AddThenCancel(s: Sem, n: nat, i: nat): Sem
    requires Inv(s) && Live(s, i)
  {
    AddKeepsInv(s, n);
    AddKeepsLive(s, n, i);
    DropAcquire(AddPermits(s, n), i)
  }

  function CancelThenAdd(s: Sem, n: nat, i: nat): (r: Sem)
    requires Inv(s) && Live(s, i)
  {
    AddPermits(DropAcquire(s, i), n)
  }

  lemma {:induction false} AddKeepsLive(s: Sem, n: nat, i: nat)
    requires WellQueued(s) && Live(s, i)
    ensures Live(AddPermits(s, n), i)
    decreases |s.queue|
  {
    if n > 0 && s.queue != [] && Need(s, 0) <= n {
      AddKeepsLive(Grant(s), n - Need(s, 0), i);
    }
  }

  // ---------- States that differ for future i only ----------

  lemma GrantKeepsSame(x: Sem, y: Sem, i: nat)
    requires WellQueued(x) && WellQueued(y) && SameForOthers(x, y, i) && i !in x.queue && x.queue != []
    ensures y.queue != [] && Need(x, 0) == Need(y, 0) && SameForOthers(Grant(x), Grant(y), i) && i !in Grant(x).queue
  {
    assert x.queue[0] != i && CanReceive(x, x.queue[0]);
    assert Grant(x).wakes[..|x.wakes|] == x.wakes && Grant(y).wakes[..|y.wakes|] == y.wakes;
  }

  lemma PartKeepsSame(x: Sem, y: Sem, n: nat, i: nat)
    requires WellQueued(x) && WellQueued(y) && SameForOthers(x, y, i) && i !in x.queue && x.queue != []
    requires 0 < n < Need(x, 0)
    ensures SameForOthers(AddPermits(x, n), AddPermits(y, n), i) && i !in AddPermits(x, n).queue
  {
    assert x.queue[0] != i && CanReceive(x, x.queue[0]);
  }

  lemma PoolKeepsSame(x: Sem, y: Sem, n: nat, i: nat)
    requires WellQueued(x) && WellQueued(y) && SameForOthers(x, y, i) && x.queue == []
    ensures SameForOthers(AddPermits(x, n), AddPermits(y, n), i) && AddPermits(x, n).queue == []
  {
    AddToPool(x, n);
    AddToPool(y, n);
  }

  lemma {:induction false} AddKeepsSame(x: Sem, y: Sem, n: nat, i: nat)
    requires WellQueued(x) && WellQueued(y) && SameForOthers(x, y, i) && i !in x.queue
    ensures SameForOthers(AddPermits(x, n), AddPermits(y, n), i)
    ensures i !in AddPermits(x, n).queue
    decreases |x.queue|
  {
    hide WellQueued, SameForOthers, AddPermits, Grant, Need;
    if n == 0 {
      AddNothing(x);
      AddNothing(y);
    } else if x.queue == [] {
      PoolKeepsSame(x, y, n, i);
    } else if Need(x, 0) > n {
      PartKeepsSame(x, y, n, i);
    } else {
      GrantKeepsSame(x, y, i);
      GrantShortens(x);
      AddGrants(x, n);
      AddGrants(y, n);
      AddKeepsSame(Grant(x), Grant(y), n - Need(x, 0), i);
    }
  }

  // Hand-outs that start from the same state and look the same to the others are the same.
  lemma SameMeansEqual(s: Sem, x: Sem, y: Sem, i: nat)
    requires WellQueued(s) && WellQueued(x) && WellQueued(y) && i < |s.futs|
    requires x.wakes + Wakeups(x) == y.wakes + Wakeups(y)
    requires |x.futs| == |s.futs| == |y.futs| && x.futs[i] == y.futs[i]
    requires SameForOthers(x, y, i)
    ensures x == y
  {
    assert x.futs == y.futs;
    assert Wakeups(x) == Wakeups(y);
    assert |x.wakes| == |y.wakes|;
    assert x.wakes == (x.wakes + Wakeups(x))[..|x.wakes|];
    assert y.wakes == (y.wakes + Wakeups(y))[..|y.wakes|];
  }

  // Among futures that do not include i, two calls can be swapped without the others noticing exactly
  // when they can be swapped at all.
  lemma OrderForOthers(s: Sem, a: nat, b: nat, i: nat)
    requires WellQueued(s) && i < |s.futs| && i !in s.queue && a + b <= USIZE_MAX
    ensures SameForOthers(AddPermits(AddPermits(s, a), b), AddPermits(AddPermits(s, b), a), i)
            <==> a == 0 || b == 0 || Misfit(s, a) == Misfit(s, b)
  {
    var x, y := AddPermits(AddPermits(s, a), b), AddPermits(AddPermits(s, b), a);
    hide WellQueued, AddPermits, Wakeups, Misfit, SameForOthers;
    TwiceForOthers(s, a, b, i);
    TwiceForOthers(s, b, a, i);
    AddsCommute(s, a, b);
    if SameForOthers(x, y, i) {
      SameMeansEqual(s, x, y, i);
    } else {
      NotSameMeansDifferent(x, y, i);
    }
  }

  lemma TwiceForOthers(s: Sem, a: nat, b: nat, i: nat)
    requires WellQueued(s) && i < |s.futs| && i !in s.queue
    ensures var x := AddPermits(AddPermits(s, a), b);
            |x.futs| == |s.futs| && x.futs[i] == s.futs[i] && x.wakes + Wakeups(x) == s.wakes + Wakeups(s)
  {
    hide WellQueued, AddPermits, Wakeups;
    AddMovesTickets(s, a);
    AddMovesTickets(AddPermits(s, a), b);
    AddLeavesOthers(s, a, i);
    AddLeavesOthers(AddPermits(s, a), b, i);
  }

  lemma NotSameMeansDifferent(x: Sem, y: Sem, i: nat)
    requires !SameForOthers(x, y, i)
    ensures x != y
  {
  }

  lemma SameTransitive(x: Sem, y: Sem, z: Sem, i: nat)
    requires SameForOthers(x, y, i)
    ensures SameForOthers(y, z, i) <==> SameForOthers(x, z, i)
  {
  }

  lemma DifferentForOthers(s: Sem, x: nat, y: nat, i: nat)
    requires WellQueued(s) && i < |s.futs| && i !in s.queue && Untaken(s)
    requires x <= USIZE_MAX + Ahead(s, |s.queue|) && y <= USIZE_MAX + Ahead(s, |s.queue|)
    ensures SameForOthers(AddPermits(s, x), AddPermits(s, y), i) <==> x == y
  {
    AddMovesTickets(s, x);
    AddMovesTickets(s, y);
    AddLeavesOthers(s, x, i);
    AddLeavesOthers(s, y, i);
    AmountsDecide(s, x, y);
    hide WellQueued, AddPermits, Wakeups;
    if SameForOthers(AddPermits(s, x), AddPermits(s, y), i) {
      SameMeansEqual(s, AddPermits(s, x), AddPermits(s, y), i);
    }
  }

  // ---------- A future that is not queued ----------

  lemma DetachKeepsOutsiders(s: Sem, i: nat)
    requires Inv(s) && Live(s, i) && i !in s.queue
    ensures Cancelled(s, i).queue == s.queue
    ensures forall k :: 0 <= k < |s.queue| ==> Need(Cancelled(s, i), k) == Need(s, k)
  {
    DetachKeepsInv(s, i);
    assert forall k :: 0 <= k < |s.queue| ==> CanReceive(s, s.queue[k]);
  }

  lemma GrantDetachCommute(s: Sem, i: nat)
    requires Inv(s) && Live(s, i) && i !in s.queue && s.queue != []
    ensures Cancelled(s, i).queue == s.queue && Need(Cancelled(s, i), 0) == Need(s, 0)
    ensures Inv(Grant(s)) && Live(Grant(s), i) && i !in Grant(s).queue
    ensures Cancelled(Grant(s), i) == Grant(Cancelled(s, i))
  {
    DetachKeepsOutsiders(s, i);
    GrantKeepsInv(s);
    assert Cancelled(Grant(s), i).futs == Grant(Cancelled(s, i)).futs;
  }

  lemma PartDetachCommute(s: Sem, n: nat, i: nat)
    requires Inv(s) && Live(s, i) && i !in s.queue && s.queue != [] && 0 < n < Need(s, 0)
    ensures Cancelled(s, i).queue == s.queue && Need(Cancelled(s, i), 0) == Need(s, 0)
    ensures Inv(GrantPart(s, n)) && Live(GrantPart(s, n), i)
    ensures AddPermits(s, n) == GrantPart(s, n) && AddPermits(Cancelled(s, i), n) == GrantPart(Cancelled(s, i), n)
    ensures Front(Cancelled(s, i)) == Front(s)
    ensures Cancelled(GrantPart(s, n), i) == GrantPart(Cancelled(s, i), n)
  {
    DetachKeepsOutsiders(s, i);
    PartKeepsInv(s, n);
    assert Cancelled(GrantPart(s, n), i).futs == GrantPart(Cancelled(s, i), n).futs;
  }

  lemma AddAtOnceDetachCommute(s: Sem, n: nat, i: nat)
    requires Inv(s) && Live(s, i) && i !in s.queue && (n == 0 || s.queue == [] || Need(s, 0) > n)
    ensures Inv(AddPermits(s, n)) && Live(AddPermits(s, n), i)
    ensures Cancelled(AddPermits(s, n), i) == AddPermits(Cancelled(s, i), n)
    ensures Misfit(Cancelled(s, i), n) == Misfit(s, n)
  {
    AddKeepsInv(s, n);
    DetachKeepsOutsiders(s, i);
    MisfitAtOnce(s, n);
    MisfitAtOnce(Cancelled(s, i), n);
    if n > 0 && s.queue != [] {
      PartDetachCommute(s, n, i);
    }
  }

  lemma InvMeansWellQueued(s: Sem)
    requires Inv(s)
    ensures WellQueued(s)
  {
  }

  // Handing out permits and removing a future that is not queued do not interfere.
  lemma {:induction false} AddDetachCommute(s: Sem, n: nat, i: nat)
    requires Inv(s) && Live(s, i) && i !in s.queue
    ensures Inv(AddPermits(s, n)) && Live(AddPermits(s, n), i)
    ensures Cancelled(AddPermits(s, n), i) == AddPermits(Cancelled(s, i), n)
    ensures Misfit(Cancelled(s, i), n) == Misfit(s, n)
    decreases |s.queue|
  {
    hide Inv, WellQueued, Cancelled, Misfit, AddPermits;
    InvMeansWellQueued(s);
    if n == 0 || s.queue == [] || Need(s, 0) > n {
      AddAtOnceDetachCommute(s, n, i);
    } else {
      GrantDetachCommute(s, i);
      AddGrants(s, n);
      AddGrants(Cancelled(s, i), n);
      AddDetachCommute(Grant(s), n - Need(s, 0), i);
      DriftAfterGrant(s, n);
      DriftAfterGrant(Cancelled(s, i), n);
    }
  }

  lemma CancelOutsider(s: Sem, n: nat, i: nat)
    requires Inv(s) && Live(s, i) && i !in s.queue && n + s.futs[i].permits <= USIZE_MAX
    ensures SameForOthers(AddThenCancel(s, n, i), CancelThenAdd(s, n, i), i)
            <==> n == 0 || s.futs[i].permits == 0 || Misfit(s, n) == Misfit(Cancelled(s, i), s.futs[i].permits)
  {
    var c := s.futs[i].permits;
    var d := Cancelled(s, i);
    assert i !in d.queue && i < |d.futs|;
    AddDetachCommute(s, n, i);
    AddLeavesOthers(s, n, i);
    assert AddThenCancel(s, n, i) == AddPermits(AddPermits(d, n), c);
    assert CancelThenAdd(s, n, i) == AddPermits(AddPermits(d, c), n);
    hide Inv, WellQueued, AddPermits, Cancelled, SameForOthers, Misfit, AddThenCancel, CancelThenAdd;
    OrderForOthers(d, n, c, i);
  }

  // ---------- The waiter at the front ----------

  // Granting the front waiter and removing it afterwards, or removing it while it is queued, look
  // the same to the others.
  lemma GrantedOrQueued(s: Sem)
    requires Inv(s) && s.queue != []
    ensures Inv(Grant(s)) && Live(s, s.queue[0]) && Live(Grant(s), s.queue[0])
    ensures s.queue[0] !in Grant(s).queue && Grant(s).futs[s.queue[0]].permits == Front(s).wants
    ensures var (g, d) := (Cancelled(Grant(s), s.queue[0]), Cancelled(s, s.queue[0]));
            && SameForOthers(g, d, s.queue[0])
            && s.queue[0] !in g.queue && s.queue[0] < |g.futs| && Untaken(g) && Untaken(d)
  {
    var i := s.queue[0];
    assert i in s.queue;
    GrantKeepsInv(s);
    assert (s.wakes + [Wake(i, Front(s).waker.value)])[..|s.wakes|] == s.wakes;
    GrantedFrontStartsFresh(s);
  }

  lemma PartThenDetach(s: Sem, n: nat)
    requires Inv(s) && s.queue != [] && 0 < n < Need(s, 0)
    ensures Inv(GrantPart(s, n)) && Live(GrantPart(s, n), s.queue[0]) && Live(s, s.queue[0])
    ensures Cancelled(GrantPart(s, n), s.queue[0]) == Cancelled(s, s.queue[0])
    ensures GrantPart(s, n).futs[s.queue[0]].permits == Need(s, 0) - n
  {
    assert s.queue[0] in s.queue;
    PartKeepsInv(s, n);
    assert Cancelled(GrantPart(s, n), s.queue[0]).futs == Cancelled(s, s.queue[0]).futs;
  }

  lemma PartialSides(s: Sem, n: nat)
    requires Inv(s) && s.queue != [] && 0 < n < Need(s, 0) && Live(s, s.queue[0])
    ensures var (i, d) := (s.queue[0], Cancelled(s, s.queue[0]));
            && i < |d.futs| && i !in d.queue && Untaken(d)
            && AddThenCancel(s, n, i) == AddPermits(d, Need(s, 0) - n)
            && CancelThenAdd(s, n, i) == AddPermits(AddPermits(d, Front(s).permits), n)
  {
    PartThenDetach(s, n);
    GrantedOrQueued(s);
    assert AddPermits(s, n) == GrantPart(s, n);
  }

  // A waiter that wants w and holds p is removed from the front of d.  Returning what the program
  // stores after giving it n more is the same as returning p and adding n exactly when the one misfit
  // is the other.
  lemma FrontBalance(d: Sem, w: nat, p: nat, n: nat, i: nat)
    requires WellQueued(d) && i < |d.futs| && i !in d.queue && Untaken(d)
    requires p < w <= USIZE_MAX && 0 < n < w - p
    ensures SameForOthers(AddPermits(d, w - p - n), AddPermits(AddPermits(d, p), n), i)
            <==> w - 2 * (p + n) == Misfit(d, p)
  {
    hide WellQueued, AddPermits, SameForOthers, Misfit, Untaken;
    TwiceIsOnce(d, p, n);
    MisfitBounds(d, p);
    DifferentForOthers(d, w - p - n, p + n + Misfit(d, p), i);
  }

  lemma CancelPartial(s: Sem, n: nat)
    requires Inv(s) && s.queue != [] && 0 < n < Need(s, 0) && Live(s, s.queue[0])
    ensures SameForOthers(AddThenCancel(s, n, s.queue[0]), CancelThenAdd(s, n, s.queue[0]), s.queue[0])
            <==> Misfit(s, n) == Misfit(Cancelled(s, s.queue[0]), Front(s).permits)
  {
    hide *;
    var d := Cancelled(s, s.queue[0]);
    FrontIsWord(s);
    PartialSides(s, n);
    MisfitAtOnce(s, n);
    FrontBalance(d, Front(s).wants, Front(s).permits, n, s.queue[0]);
  }

  lemma FrontIsWord(s: Sem)
    requires Inv(s) && s.queue != []
    ensures Front(s).wants <= USIZE_MAX && Front(s).permits < Front(s).wants
    ensures WellQueued(s) && Need(s, 0) == Front(s).wants - Front(s).permits
  {
    assert s.queue[0] in s.queue && FutOk(s.futs[s.queue[0]], s.closed);
  }

  lemma GrantedFront(s: Sem)
    requires Inv(s) && s.queue != []
    ensures Inv(Grant(s)) && Live(Grant(s), s.queue[0]) && s.queue[0] !in Grant(s).queue
    ensures Grant(s).futs[s.queue[0]].permits == Front(s).wants
  {
    GrantedOrQueued(s);
  }

  lemma GrantedSides(s: Sem, n: nat)
    requires Inv(s) && s.queue != [] && Need(s, 0) <= n && Live(s, s.queue[0])
    ensures Inv(Grant(s)) && Live(Grant(s), s.queue[0])
    ensures var (i, g) := (s.queue[0], Cancelled(Grant(s), s.queue[0]));
            && AddThenCancel(s, n, i) == AddPermits(AddPermits(g, n - Need(s, 0)), Front(s).wants)
            && Misfit(g, n - Need(s, 0)) == Misfit(s, n)
  {
    hide Inv, WellQueued, Detach, Grant, AddPermits, Misfit, Front, Need;
    FrontIsWord(s);
    var i, m := s.queue[0], n - Need(s, 0);
    GrantedFront(s);
    AddDetachCommute(Grant(s), m, i);
    AddLeavesOthers(Grant(s), m, i);
    DriftAfterGrant(s, n);
    AddGrants(s, n);
  }

  lemma CancelledFrontSide(s: Sem, n: nat)
    requires Inv(s) && s.queue != [] && Live(s, s.queue[0])
    ensures CancelThenAdd(s, n, s.queue[0]) == AddPermits(AddPermits(Cancelled(s, s.queue[0]), Front(s).permits), n)
  {
    hide Inv, WellQueued, AddPermits;
  }

  lemma CancelGranted(s: Sem, n: nat)
    requires Inv(s) && s.queue != [] && Need(s, 0) <= n && n + Front(s).permits <= USIZE_MAX && Live(s, s.queue[0])
    ensures SameForOthers(AddThenCancel(s, n, s.queue[0]), CancelThenAdd(s, n, s.queue[0]), s.queue[0])
            <==> Misfit(s, n) == Misfit(Cancelled(s, s.queue[0]), Front(s).permits)
  {
    hide *;
    FrontIsWord(s);
    var i, p, w := s.queue[0], Front(s).permits, Front(s).wants;
    GrantedOrQueued(s);
    GrantedSides(s, n);
    CancelledFrontSide(s, n);
    GrantedBalance(Cancelled(s, i), Cancelled(Grant(s), i), w, p, n, i);
  }

  // The front waiter wanted w and held p; d is the state without it, g the state in which it is
  // granted before it is removed.
  lemma GrantedBalance(d: Sem, g: Sem, w: nat, p: nat, n: nat, i: nat)
    requires WellQueued(d) && WellQueued(g) && SameForOthers(g, d, i) && i !in g.queue && i < |g.futs|
    requires Untaken(g) && p < w <= n + p <= USIZE_MAX
    ensures SameForOthers(AddPermits(AddPermits(g, n + p - w), w), AddPermits(AddPermits(d, p), n), i)
            <==> Misfit(g, n + p - w) == Misfit(d, p)
  {
    hide *;
    TwiceIsOnce(g, n + p - w, w);
    TwiceIsOnce(g, p, n);
    MisfitBounds(g, n + p - w);
    MisfitBounds(g, p);
    DifferentForOthers(g, n + p + Misfit(g, n + p - w), n + p + Misfit(g, p), i);
    AddKeepsSame(g, d, p, i);
    AddKeepsSame(AddPermits(g, p), AddPermits(d, p), n, i);
    SameMisfit(g, d, p, i);
    var x := AddPermits(AddPermits(g, n + p - w), w);
    var (y, z) := (AddPermits(AddPermits(g, p), n), AddPermits(AddPermits(d, p), n));
    SameTransitive(y, z, x, i);
    SameSymmetric(x, y, i);
    SameSymmetric(x, z, i);
  }

  // The misfit of a call depends on the queued futures only.
  lemma SameMisfit(x: Sem, y: Sem, n: nat, i: nat)
    requires WellQueued(x) && WellQueued(y) && SameForOthers(x, y, i) && i !in x.queue
    ensures Misfit(x, n) == Misfit(y, n)
  {
    assert SameLine(x, y) by {
      assert forall k :: 0 <= k < |x.queue| ==> CanReceive(x, x.queue[k]) && x.queue[k] != i;
    }
    var k := Prefix(x, n);
    AheadInSameLine(x, y, k);
    if k < |x.queue| {
      AheadInSameLine(x, y, k + 1);
      assert CanReceive(x, x.queue[k]);
    }
    PrefixUnique(y, n, Prefix(y, n), k);
  }

  lemma SameSymmetric(x: Sem, y: Sem, i: nat)
    ensures SameForOthers(x, y, i) <==> SameForOthers(y, x, i)
  {
  }

  // ---------- A waiter anywhere in the queue ----------

  lemma DetachBehindGrant(s: Sem, k: nat)
    requires Inv(s) && 1 <= k < |s.queue|
    ensures var i := s.queue[k];
            && Live(s, i) && Inv(Grant(s)) && Live(Grant(s), i) && k - 1 < |Grant(s).queue|
            && Grant(s).queue[k - 1] == i
            && s.futs[i].permits == 0 && Grant(s).futs[i].permits == 0
            && Cancelled(s, i).queue != [] && Need(Cancelled(s, i), 0) == Need(s, 0)
            && Cancelled(Grant(s), i) == Grant(Cancelled(s, i))
  {
    var i := s.queue[k];
    assert i in s.queue && i != s.queue[0];
    GrantKeepsInv(s);
    assert Cancelled(Grant(s), i).futs == Grant(Cancelled(s, i)).futs;
    assert Cancelled(s, i).queue == [s.queue[0]] + Without(s.queue[1..], i);
  }

  lemma PartBehind(s: Sem, n: nat, k: nat)
    requires Inv(s) && 1 <= k < |s.queue| && 0 < n < Need(s, 0) && Live(s, s.queue[k])
    ensures AddThenCancel(s, n, s.queue[k]) == CancelThenAdd(s, n, s.queue[k])
  {
    var i := s.queue[k];
    DetachBehindGrant(s, k);
    var d := Cancelled(s, i);
    assert d.queue[0] == s.queue[0] != i;
    PartKeepsInv(s, n);
    assert Cancelled(GrantPart(s, n), i).futs == GrantPart(d, n).futs;
    assert Cancelled(GrantPart(s, n), i) == GrantPart(d, n);
  }

  lemma {:induction false} CancelQueuedAt(s: Sem, n: nat, k: nat)
    requires Inv(s) && k < |s.queue| && Live(s, s.queue[k]) && n + s.futs[s.queue[k]].permits <= USIZE_MAX
    ensures SameForOthers(AddThenCancel(s, n, s.queue[k]), CancelThenAdd(s, n, s.queue[k]), s.queue[k])
            <==> n <= Ahead(s, k) || Misfit(s, n) == Misfit(Cancelled(s, s.queue[k]), s.futs[s.queue[k]].permits)
    decreases k
  {
    hide Misfit;
    if n == 0 {
      CancelAfterNothing(s, s.queue[k]);
    } else if k == 0 {
      if n < Need(s, 0) {
        CancelPartial(s, n);
      } else {
        CancelGranted(s, n);
      }
    } else if Need(s, 0) > n {
      PartBehind(s, n, k);
      AheadMonotone(s, 1, k);
      assert Ahead(s, 1) == Ahead(s, 0) + Need(s, 0);
    } else {
      CancelBehindGranted(s, n, k);
    }
  }

  lemma CancelAfterNothing(s: Sem, i: nat)
    requires Inv(s) && Live(s, i)
    ensures AddThenCancel(s, 0, i) == CancelThenAdd(s, 0, i)
  {
  }

  lemma {:induction false} CancelBehindGranted(s: Sem, n: nat, k: nat)
    requires Inv(s) && 1 <= k < |s.queue| && Need(s, 0) <= n <= USIZE_MAX && Live(s, s.queue[k])
    ensures SameForOthers(AddThenCancel(s, n, s.queue[k]), CancelThenAdd(s, n, s.queue[k]), s.queue[k])
            <==> n <= Ahead(s, k) || Misfit(s, n) == Misfit(Cancelled(s, s.queue[k]), s.futs[s.queue[k]].permits)
    decreases k, 0
  {
    var i, g, m := s.queue[k], Grant(s), n - Need(s, 0);
    hide *;
    BehindGrantedSides(s, n, k);
    MisfitAtOnce(Cancelled(g, i), 0);
    MisfitAtOnce(Cancelled(s, i), 0);
    CancelQueuedAt(g, m, k - 1);
    AheadAfterGrant(s, k);
    DriftAfterGrant(s, n);
  }

  lemma BehindGrantedSides(s: Sem, n: nat, k: nat)
    requires Inv(s) && 1 <= k < |s.queue| && Need(s, 0) <= n && Live(s, s.queue[k])
    ensures var (i, g, m) := (s.queue[k], Grant(s), n - Need(s, 0));
            && Inv(g) && Live(g, i) && k - 1 < |g.queue| && g.queue[k - 1] == i
            && g.futs[i].permits == 0 && s.futs[i].permits == 0
            && AddThenCancel(s, n, i) == AddThenCancel(g, m, i)
            && CancelThenAdd(s, n, i) == CancelThenAdd(g, m, i)
  {
    hide Inv, WellQueued, Detach, Grant, AddPermits, Need;
    FrontIsWord(s);
    var i := s.queue[k];
    DetachBehindGrant(s, k);
    AddGrants(s, n);
    AddGrants(Cancelled(s, i), n);
    AddNothing(Cancelled(s, i));
    AddNothing(Cancelled(Grant(s), i));
  }

  // ---------- The law ----------

  // Future i is not touched by adding n, or has nothing to return.
  predicate Untouched(s: Sem, n: nat, i: nat)
    requires Inv(s) && Live(s, i)
  {
    if i in s.queue then n <= Ahead(s, Place(s.queue, i)) else n == 0 || s.futs[i].permits == 0
  }

  // Adding n permits and then cancelling future i leaves the pool, the queue, every other future
  // and the wake-ups of the others exactly as cancelling first and adding afterwards does, if and
  // only if the call does not touch future i or the misfit of the added permits is that of the
  // permits that cancelling future i returns.
  lemma CancelCommutesWithAdd(s: Sem, n: nat, i: nat)
    requires Inv(s) && Live(s, i) && n + s.futs[i].permits <= USIZE_MAX
    ensures SameForOthers(AddThenCancel(s, n, i), CancelThenAdd(s, n, i), i)
            <==> Untouched(s, n, i) || Misfit(s, n) == Misfit(Cancelled(s, i), s.futs[i].permits)
  {
    hide Inv, WellQueued, AddThenCancel, CancelThenAdd, SameForOthers, Misfit, Cancelled;
    if i in s.queue {
      CancelQueuedAt(s, n, Place(s.queue, i));
    } else {
      CancelOutsider(s, n, i);
    }
  }

  // Where nobody asks for more than two permits, cancelling always commutes with adding.
  lemma CancelCommutesForSmall(s: Sem, n: nat, i: nat)
    requires Inv(s) && Live(s, i) && n + s.futs[i].permits <= USIZE_MAX && WantsAtMostTwo(s)
    ensures SameForOthers(AddThenCancel(s, n, i), CancelThenAdd(s, n, i), i)
  {
    SmallHandsFit(System(s, []), DropFuture(i));
    SmallRequestsFit(s, n);
    hide Inv, WellQueued, AddThenCancel, CancelThenAdd, SameForOthers, Misfit;
    CancelCommutesWithAdd(s, n, i);
  }
}
