/** What adding the same number of permits again and again does for the waiters: exactly when they are
    never completed, for every mix of request sizes. */
module SemaphoreStarving {
  import opened Basics
  import opened SemaphoreModel
  import opened SemaphoreGrants
  import opened SemaphoreRuns
  import opened SemaphoreWaiting

  // The front waiter holds a permit, and n more do not complete its request.
  predicate Starves(s: Sem, n: nat)
    requires WellQueued(s)
  {
    s.queue != [] && 1 <= Front(s).permits && Front(s).permits + n < Front(s).wants
  }

  // ---------- Two calls ----------

  lemma TwiceIsNothing(s: Sem, n: nat)
    requires WellQueued(s) && n > 0 && Starves(s, n)
    ensures AddPermits(s, n).queue == s.queue && AddPermits(AddPermits(s, n), n) == s
  {
    AddGrantsPart(s, n);
    AddGrantsPart(GrantPart(s, n), n);
    assert GrantPart(GrantPart(s, n), n).futs == s.futs;
  }

  lemma FrontLeaves(s: Sem, n: nat)
    requires WellQueued(s) && s.queue != [] && Need(s, 0) <= n
    ensures s.queue[0] < |s.futs| && s.queue[0] !in AddPermits(s, n).queue
    ensures |AddPermits(s, n).futs| == |s.futs|
  {
    var id := s.queue[0];
    assert CanReceive(s, id);
    AddGrants(s, n);
    AddLeavesOthers(Grant(s), n - Need(s, 0), id);
  }

  // A front waiter that does not starve is off the queue after at most two calls.
  lemma TwiceIsEnough(s: Sem, n: nat)
    requires WellQueued(s) && s.queue != [] && n > 0 && !Starves(s, n)
    ensures var r := AddPermits(AddPermits(s, n), n);
            s.queue[0] < |s.futs| == |r.futs| && s.queue[0] !in r.queue
  {
    assert CanReceive(s, s.queue[0]);
    if Need(s, 0) <= n {
      FrontLeaves(s, n);
      AddLeavesOthers(AddPermits(s, n), n, s.queue[0]);
    } else {
      AddGrantsPart(s, n);
      FrontLeaves(GrantPart(s, n), n);
    }
  }

  // Two calls undo each other exactly when the front waiter starves: then 2n permits vanish.
  lemma TwiceIsNothingExactly(s: Sem, n: nat)
    requires WellQueued(s) && s.queue != [] && n > 0
    ensures AddPermits(AddPermits(s, n), n) == s <==> Starves(s, n)
  {
    if Starves(s, n) {
      TwiceIsNothing(s, n);
    } else {
      TwiceIsEnough(s, n);
      assert s.queue[0] in s.queue;
    }
  }

  // ---------- Any number of calls ----------

  function AddTimes(s: Sem, n: nat, k: nat): (r: Sem)
    requires WellQueued(s)
    ensures WellQueued(r)
    decreases k
  {
    if k == 0 then s else AddTimes(AddPermits(s, n), n, k - 1)
  }

  lemma {:induction false} StarvingForever(s: Sem, n: nat, k: nat)
    requires WellQueued(s) && n > 0 && Starves(s, n)
    ensures AddTimes(s, n, k) == if k % 2 == 0 then s else AddPermits(s, n)
    ensures AddTimes(s, n, k).queue == s.queue
    decreases k
  {
    hide AddPermits, WellQueued;
    TwiceIsNothing(s, n);
    if k >= 2 {
      assert AddTimes(s, n, k) == AddTimes(AddPermits(s, n), n, k - 1) == AddTimes(s, n, k - 2);
      StarvingForever(s, n, k - 2);
    } else if k == 1 {
      assert AddTimes(s, n, 1) == AddTimes(AddPermits(s, n), n, 0);
    }
  }

  lemma {:induction false} GoneForGood(s: Sem, n: nat, k: nat, id: nat)
    requires WellQueued(s) && id < |s.futs| && id !in s.queue
    ensures id !in AddTimes(s, n, k).queue
    decreases k
  {
    hide AddPermits, WellQueued;
    if k > 0 {
      AddLeavesOthers(s, n, id);
      GoneForGood(AddPermits(s, n), n, k - 1, id);
    }
  }

  lemma {:induction false} NothingAdded(s: Sem, k: nat)
    requires WellQueued(s)
    ensures AddTimes(s, 0, k) == s
    decreases k
  {
    AddNothing(s);
    if k > 0 {
      NothingAdded(s, k - 1);
    }
  }

  lemma {:induction false} AddTimesTwice(s: Sem, n: nat, a: nat, b: nat)
    requires WellQueued(s)
    ensures AddTimes(s, n, a + b) == AddTimes(AddTimes(s, n, a), n, b)
    decreases a
  {
    hide AddPermits, WellQueued;
    if a > 0 {
      AddTimesTwice(AddPermits(s, n), n, a - 1, b);
    }
  }

  // A queue whose front waiter does not starve never gets one that does: a waiter that moves to the
  // front is given less than a whole call there.
  lemma NeverStarvesLater(s: Sem, n: nat)
    requires WellQueued(s) && !Starves(s, n)
    ensures !Starves(AddPermits(s, n), n)
    ensures Prefix(s, n) <= |s.queue| && AddPermits(s, n).queue == s.queue[Prefix(s, n)..]
  {
    var k, r := Prefix(s, n), AddPermits(s, n);
    AddPermitsIsGreedy(s, n);
    if k < |s.queue| {
      NeedAfterAdd(s, n, 0);
      AheadMonotone(s, 0, k);
      assert CanReceive(s, s.queue[k]);
      FutAfterAdd(s, n, s.queue[k]);
      NotInPrefix(s, k, k);
    }
  }

  // Every queued waiter is served by two calls for itself and two for each waiter ahead of it.
  lemma {:induction false} ServedWithin(s: Sem, n: nat, j: nat)
    requires WellQueued(s) && n > 0 && !Starves(s, n) && j < |s.queue|
    ensures s.queue[j] !in AddTimes(s, n, 2 * (j + 1)).queue
    decreases j
  {
    hide AddPermits, WellQueued, Starves, AddTimes, Prefix;
    var (a, id) := (AddPermits(s, n), s.queue[j]);
    var m := AddPermits(a, n);
    NeverStarvesLater(s, n);
    NeverStarvesLater(a, n);
    TwiceIsEnough(s, n);
    AddTwice(s, n, 2 * j);
    QueuedIsFuture(s, j);
    AddKeepsFutures(s, n);
    AddKeepsFutures(a, n);
    if id in m.queue {
      var c := |s.queue| - |m.queue|;
      assert m.queue == s.queue[c..];
      SuffixIndex(s, c, j);
      ServedWithin(m, n, j - c);
      AddTimesTwice(m, n, 2 * (j - c + 1), 2 * (c - 1));
      AddTimesKeepsFutures(m, n, 2 * (j - c + 1));
      GoneForGood(AddTimes(m, n, 2 * (j - c + 1)), n, 2 * (c - 1), id);
    } else {
      GoneForGood(m, n, 2 * j, id);
    }
  }

  lemma AddTwice(s: Sem, n: nat, k: nat)
    requires WellQueued(s)
    ensures AddTimes(s, n, k + 2) == AddTimes(AddPermits(AddPermits(s, n), n), n, k)
  {
    hide AddPermits, WellQueued;
    assert AddTimes(s, n, k + 2) == AddTimes(AddPermits(s, n), n, k + 1);
  }

  lemma QueuedIsFuture(s: Sem, j: nat)
    requires WellQueued(s) && j < |s.queue|
    ensures s.queue[j] < |s.futs|
  {
    assert CanReceive(s, s.queue[j]);
  }

  lemma AddKeepsFutures(s: Sem, n: nat)
    requires WellQueued(s)
    ensures |AddPermits(s, n).futs| == |s.futs|
  {
    AddKeepsWants(s, n);
  }

  lemma {:induction false} AddTimesKeepsFutures(s: Sem, n: nat, k: nat)
    requires WellQueued(s)
    ensures |AddTimes(s, n, k).futs| == |s.futs|
    decreases k
  {
    hide AddPermits, WellQueued;
    AddKeepsFutures(s, n);
    if k > 0 {
      AddTimesKeepsFutures(AddPermits(s, n), n, k - 1);
    }
  }

  // A proper suffix of the queue that still holds its j-th waiter begins no later than there.
  lemma SuffixIndex(s: Sem, c: nat, j: nat)
    requires WellQueued(s) && c <= |s.queue| && j < |s.queue| && s.queue[j] in s.queue[c..]
    requires s.queue[0] !in s.queue[c..]
    ensures 1 <= c <= j && s.queue[c..][j - c] == s.queue[j]
  {
    var i := IndexOf(s.queue[c..], s.queue[j]);
    assert s.queue[c + i] == s.queue[j];
    assert s.queue[0..] == s.queue;
  }

  // However often n permits are added, a queued waiter is never completed, if and only if n is zero
  // or the front waiter starves; otherwise two calls for it and each waiter ahead complete it.
  lemma StarvesExactly(s: Sem, n: nat, j: nat)
    requires WellQueued(s) && j < |s.queue|
    ensures (forall k :: s.queue[j] in AddTimes(s, n, k).queue) <==> n == 0 || Starves(s, n)
    ensures !(n == 0 || Starves(s, n)) ==> forall k :: k >= 2 * (j + 1) ==> s.queue[j] !in AddTimes(s, n, k).queue
  {
    hide AddPermits, WellQueued, Starves, AddTimes;
    if n == 0 || Starves(s, n) {
      forall k: nat
        ensures s.queue[j] in AddTimes(s, n, k).queue
      {
        if n == 0 {
          NothingAdded(s, k);
        } else {
          StarvingForever(s, n, k);
        }
      }
    } else {
      var m := 2 * (j + 1);
      ServedWithin(s, n, j);
      QueuedIsFuture(s, j);
      AddTimesKeepsFutures(s, n, m);
      forall k: nat | k >= m
        ensures s.queue[j] !in AddTimes(s, n, k).queue
      {
        AddTimesTwice(s, n, m, k - m);
        GoneForGood(AddTimes(s, n, m), n, k - m, s.queue[j]);
      }
      assert s.queue[j] !in AddTimes(s, n, m).queue;
    }
  }

  // ---------- Runs ----------

  function Repeated(n: usize, k: nat): seq<Op> {
    if k == 0 then [] else [Add(n)] + Repeated(n, k - 1)
  }

  lemma {:induction false} RepeatedIsAddTimes(t: System, n: usize, k: nat)
    requires Inv(t.sem)
    ensures Possible(t, Repeated(n, k))
    ensures WellQueued(t.sem) && Run(t, Repeated(n, k)).sem == AddTimes(t.sem, n, k)
    ensures HandedIn(t, Repeated(n, k)) == n * k
    decreases k
  {
    if k > 0 {
      var u := Step(t, Add(n));
      RepeatedIsAddTimes(u, n, k - 1);
      hide Inv, Step, AddPermits;
      assert Repeated(n, k)[0] == Add(n) && Repeated(n, k)[1..] == Repeated(n, k - 1);
      assert n * k == n + n * (k - 1);
    }
  }

  // The future is queued after every number of calls that add n permits.
  ghost predicate QueuedForever(t: System, n: usize, id: nat)
    requires Inv(t.sem)
  {
    forall k: nat :: Possible(t, Repeated(n, k)) && id in Run(t, Repeated(n, k)).sem.queue
  }

  // On runs: a queued future is never woken by adding n permits again and again, if and only if n is
  // zero or the front waiter holds a permit and n more do not complete it.
  lemma RunStarvesExactly(t: System, n: usize, id: nat)
    requires Inv(t.sem) && id in t.sem.queue
    ensures QueuedForever(t, n, id)
            <==> n == 0 || (1 <= Front(t.sem).permits && Front(t.sem).permits + n < Front(t.sem).wants)
  {
    assert WellQueued(t.sem);
    var j := IndexOf(t.sem.queue, id);
    StarvesExactly(t.sem, n, j);
    if n == 0 || Starves(t.sem, n) {
      forall k: nat
        ensures Possible(t, Repeated(n, k)) && id in Run(t, Repeated(n, k)).sem.queue
      {
        RepeatedIsAddTimes(t, n, k);
        assert id in AddTimes(t.sem, n, k).queue;
      }
    } else {
      RepeatedIsAddTimes(t, n, 2 * (j + 1));
      assert id !in AddTimes(t.sem, n, 2 * (j + 1)).queue;
    }
  }

  // A future asks a new semaphore for more permits than there are, and takes those.
  function Asking(wants: usize, held: usize, cx: Waker): (t: System)
    requires held < wants
    ensures Inv(t.sem)
  {
    FirstAsksIsReached(wants, held, cx);
    Run(NewSystem(held), [Build(wants), PollFuture(0, cx)])
  }

  // Adding n permits again and again never wakes it, if and only if n is zero, or there was at least
  // one permit and that and n together are fewer than it wants.
  lemma FirstRequestStarvesExactly(wants: usize, held: usize, n: usize, cx: Waker)
    requires held < wants
    ensures QueuedForever(Asking(wants, held, cx), n, 0) <==> n == 0 || (1 <= held && held + n < wants)
  {
    FirstAsksIsReached(wants, held, cx);
    FirstAsksIsOk(wants, held, cx);
    RunStarvesExactly(FirstAsks(wants, held, cx), n, 0);
  }

  // A request for three on a semaphore with one permit: every permit that is added on its own is lost.
  lemma RequestForThreeStarves(cx: Waker)
    ensures Step(Asking(3, 1, cx), Add(1)) == Asking(3, 1, cx)
    ensures QueuedForever(Asking(3, 1, cx), 1, 0) && !QueuedForever(Asking(3, 1, cx), 2, 0)
  {
    FirstAsksIsReached(3, 1, cx);
    AddToFirst(3, 1, 1, cx);
    FirstRequestStarvesExactly(3, 1, 1, cx);
    FirstRequestStarvesExactly(3, 1, 2, cx);
  }

  // A request for four on a semaphore with two permits: the first permit that is added on its own
  // increases what is missing from two to three, and the second one takes that back.
  lemma RequestForFourStarves(cx: Waker)
    ensures var t := Asking(4, 2, cx);
            && Missing(t.sem, 0) == 2 && Missing(Step(t, Add(1)).sem, 0) == 3
            && Step(Step(t, Add(1)), Add(1)) == t
    ensures QueuedForever(Asking(4, 2, cx), 1, 0) && !QueuedForever(Asking(4, 2, cx), 2, 0)
  {
    FirstAsksIsReached(4, 2, cx);
    AddToFirst(4, 2, 1, cx);
    AddToFirst(4, 1, 1, cx);
    MissingOfFirst(4, 2, cx);
    MissingOfFirst(4, 1, cx);
    FirstRequestStarvesExactly(4, 2, 1, cx);
    FirstRequestStarvesExactly(4, 2, 2, cx);
  }

  lemma MissingOfFirst(wants: usize, held: nat, cx: Waker)
    requires held < wants
    ensures Inv(FirstAsks(wants, held, cx).sem) && Missing(FirstAsks(wants, held, cx).sem, 0) == wants - held
  {
    FirstAsksIsOk(wants, held, cx);
    var s := FirstAsks(wants, held, cx).sem;
    assert s.queue[0] == 0 && Ahead(s, 1) == Ahead(s, 0) + Need(s, 0);
  }
}
