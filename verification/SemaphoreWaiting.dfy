/** How long a queued future waits: the permits missing in front of it, itself included, bound the
    number of permits that can be handed out before it is woken. */
module SemaphoreWaiting {
  import opened Basics
  import opened SemaphoreModel
  import opened SemaphoreGrants
  import opened SemaphoreRuns

  function Place(q: seq<nat>, id: nat): (k: nat)
    requires id in q
    ensures k < |q| && q[k] == id
  {
    if q[0] == id then 0 else 1 + Place(q[1..], id)
  }

  // The permits that the waiters up to and including future `id` miss together.
  function Missing(s: Sem, id: nat): nat
    requires WellQueued(s)
  {
    if id in s.queue then Ahead(s, Place(s.queue, id) + 1) else 0
  }

  lemma WaitingMeansMissing(s: Sem, id: nat)
    requires WellQueued(s)
    ensures Missing(s, id) > 0 <==> id in s.queue
  {
    if id in s.queue {
      AheadMonotone(s, 0, Place(s.queue, id) + 1);
    }
  }

  // ---------- Adding permits ----------

  lemma NeedAfterAdd(s: Sem, n: nat, j: nat)
    requires WellQueued(s) && Prefix(s, n) + j < |s.queue|
    ensures var r := AddPermits(s, n);
            var k := Prefix(s, n);
            && r.queue == s.queue[k..]
            && Need(r, j) == (if j == 0 && Rest(s, n) > 0 then s.futs[s.queue[k]].permits + Rest(s, n)
                              else Need(s, k + j))
  {
    hide WellQueued, AddPermits, Rest;
    var (k, r) := (Prefix(s, n), AddPermits(s, n));
    NotInPrefix(s, k, k + j);
    var id := s.queue[k + j];
    FutAfterAdd(s, n, id);
    assert Ahead(s, k + 1) == Ahead(s, k) + Need(s, k);
  }

  lemma FutAfterAdd(s: Sem, n: nat, id: nat)
    requires WellQueued(s) && id < |s.futs|
    ensures var r := AddPermits(s, n);
            && r.queue == s.queue[Prefix(s, n)..] && |r.futs| == |s.futs|
            && r.futs[id] == FutAfter(s, Prefix(s, n), Rest(s, n), id)
  {
    hide WellQueued, AddPermits, FutAfter;
    AddPermitsIsGreedy(s, n);
  }

  lemma NotInPrefix(s: Sem, k: nat, j: nat)
    requires WellQueued(s) && k <= j < |s.queue|
    ensures s.queue[j] !in s.queue[..k] && CanReceive(s, s.queue[j])
    ensures j > k ==> s.queue[j] != s.queue[k]
  {
  }

  lemma {:induction false} AheadAfterAdd(s: Sem, n: nat, j: nat)
    requires WellQueued(s) && 1 <= j <= |s.queue| - Prefix(s, n)
    ensures var r := AddPermits(s, n);
            && |r.queue| == |s.queue| - Prefix(s, n)
            && Ahead(r, j) == Ahead(s, Prefix(s, n) + j) - Ahead(s, Prefix(s, n)) - Need(s, Prefix(s, n)) + Need(r, 0)
    decreases j
  {
    hide WellQueued, AddPermits;
    NeedAfterAdd(s, n, j - 1);
    if j > 1 {
      AheadAfterAdd(s, n, j - 1);
    } else {
      assert Ahead(AddPermits(s, n), 1) == Ahead(AddPermits(s, n), 0) + Need(AddPermits(s, n), 0);
    }
  }

  lemma CompletedByAdd(s: Sem, n: nat, k: nat)
    requires WellQueued(s) && k < Prefix(s, n)
    ensures var (r, id) := (AddPermits(s, n), s.queue[k]);
            && n >= Ahead(s, k + 1)
            && id !in r.queue
            && id < |s.futs| == |r.futs|
            && r.futs[id] == s.futs[id].(permits := s.futs[id].wants, state := Woken)
  {
    AheadMonotone(s, k + 1, Prefix(s, n));
    AddPermitsIsGreedy(s, n);
    assert CanReceive(s, s.queue[k]);
    assert s.queue[k] == s.queue[..Prefix(s, n)][k];
  }

  lemma StillQueuedAfterAdd(s: Sem, n: nat, k: nat)
    requires WellQueued(s) && Prefix(s, n) <= k < |s.queue|
    ensures var (r, p) := (AddPermits(s, n), Prefix(s, n));
            && n < Ahead(s, k + 1)
            && |r.queue| == |s.queue| - p && r.queue[k - p] == s.queue[k]
            && Ahead(r, k - p + 1) == Ahead(s, k + 1) - n - Drift(s, n)
  {
    hide WellQueued, AddPermits;
    var p := Prefix(s, n);
    AheadMonotone(s, p + 1, k + 1);
    NeedAfterAdd(s, n, k - p);
    NeedAfterAdd(s, n, 0);
    AheadAfterAdd(s, n, k - p + 1);
  }

  // Exact waiting bound, whatever the waiters want.  Adding n permits completes a queued future in
  // the very call that brings the total up to what is missing.  Otherwise the call lowers what is
  // missing by n and by the permits it creates, which is exactly n when the last permits fit.
  lemma ExactWaitingBound(s: Sem, n: nat, id: nat)
    requires WellQueued(s) && id in s.queue
    ensures var r := AddPermits(s, n);
            && (id !in r.queue <==> n >= Missing(s, id))
            && (id !in r.queue ==>
                  id < |s.futs| == |r.futs| && r.futs[id] == s.futs[id].(permits := s.futs[id].wants, state := Woken))
            && (id in r.queue ==>
                  && Missing(r, id) == Missing(s, id) - n - Drift(s, n)
                  && (Drift(s, n) == 0 <==> Fits(s, n)))
  {
    hide WellQueued, AddPermits, Drift;
    var k, p := Place(s.queue, id), Prefix(s, n);
    if k < p {
      CompletedByAdd(s, n, k);
    } else {
      StillQueuedAfterAdd(s, n, k);
      MissingAtPlace(AddPermits(s, n), k - p);
      FitsMeansNoDrift(s, n);
    }
  }

  lemma FitsMeansNoDrift(s: Sem, n: nat)
    requires WellQueued(s) && Prefix(s, n) < |s.queue|
    ensures Drift(s, n) == 0 <==> Fits(s, n)
  {
  }

  // If a waiter is given a part, what it had and what it is given are together no more than what was
  // missing up to and including this waiter.
  predicate PartHelps(s: Sem, n: nat)
    requires WellQueued(s)
  {
    var k, r := Prefix(s, n), Rest(s, n);
    k < |s.queue| && r > 0 ==> s.futs[s.queue[k]].permits + r <= Ahead(s, k + 1)
  }

  // Adding permits can increase what is missing, because a waiter that is given a part may end up
  // with less than it had.  It does not do so exactly when the future is completed or the part helps.
  lemma MissingShrinksExactly(s: Sem, n: nat, id: nat)
    requires WellQueued(s) && id in s.queue
    ensures Missing(AddPermits(s, n), id) <= Missing(s, id)
            <==> n >= Missing(s, id) || PartHelps(s, n)
  {
    hide WellQueued, AddPermits;
    ExactWaitingBound(s, n, id);
    var k, p := Place(s.queue, id), Prefix(s, n);
    if n < Missing(s, id) {
      AheadMonotone(s, 0, p);
      if k < p {
        CompletedByAdd(s, n, k);
      } else {
        assert Ahead(s, p + 1) == Ahead(s, p) + Need(s, p);
      }
    }
  }

  lemma MissingAtPlace(s: Sem, k: nat)
    requires WellQueued(s) && k < |s.queue|
    ensures s.queue[k] in s.queue && Missing(s, s.queue[k]) == Ahead(s, k + 1)
  {
  }

  // ---------- The other operations ----------

  // t's queue extends s's queue, and the waiters of s have the same permits in t.
  predicate SameLine(s: Sem, t: Sem)
    requires WellQueued(s) && WellQueued(t)
  {
    && s.queue <= t.queue
    && forall k :: 0 <= k < |s.queue| ==> Need(t, k) == Need(s, k)
  }

  lemma {:induction false} AheadInSameLine(s: Sem, t: Sem, k: nat)
    requires WellQueued(s) && WellQueued(t) && SameLine(s, t) && k <= |s.queue|
    ensures Ahead(t, k) == Ahead(s, k)
    decreases k
  {
    if k > 0 {
      AheadInSameLine(s, t, k - 1);
    }
  }

  lemma MissingInSameLine(s: Sem, t: Sem, id: nat)
    requires WellQueued(s) && WellQueued(t) && SameLine(s, t) && id in s.queue
    ensures id in t.queue && Missing(t, id) == Missing(s, id)
  {
    var k := Place(s.queue, id);
    assert t.queue[k] == id;
    MissingAtPlace(t, k);
    AheadInSameLine(s, t, k + 1);
  }

  lemma {:induction false} AheadWithout(s: Sem, t: Sem, k: nat, j: nat)
    requires WellQueued(s) && WellQueued(t) && k < |s.queue| && t.queue == RemoveAt(s.queue, k)
    requires forall i :: 0 <= i < |t.queue| ==> Need(t, i) == Need(s, if i < k then i else i + 1)
    requires j <= |t.queue|
    ensures Ahead(t, j) == if j <= k then Ahead(s, j) else Ahead(s, j + 1) - Need(s, k)
    decreases j
  {
    hide WellQueued, RemoveAt;
    if j > 0 {
      AheadWithout(s, t, k, j - 1);
    }
  }

  // What cancelling future j takes away from the permits that future id waits for.
  function Relief(s: Sem, j: nat, id: nat): nat
    requires WellQueued(s) && id in s.queue
  {
    if j in s.queue && Place(s.queue, j) < Place(s.queue, id) then Need(s, Place(s.queue, j)) else 0
  }

  // Cancelling a waiter ahead lowers what is missing by that waiter's need; cancelling any other
  // future leaves it as it is.  (The permits the cancelled future held are added afterwards.)
  lemma CancelAhead(s: Sem, j: nat, id: nat)
    requires Inv(s) && Live(s, j) && id in s.queue && j != id
    ensures WellQueued(Detach(s, j)) && id in Detach(s, j).queue
    ensures Missing(Detach(s, j), id) == Missing(s, id) - Relief(s, j, id)
  {
    DetachKeepsInv(s, j);
    var d := Detach(s, j);
    if Enqueued(s, j) {
      var k := DetachedQueue(s, j);
      RemoveAtFacts(s.queue, k);
      CancelQueued(s, d, k, Place(s.queue, id));
    } else {
      MissingInSameLine(s, d, id);
    }
  }

  lemma NeedAfterCancel(s: Sem, d: Sem, k: nat, i: nat)
    requires WellQueued(s) && WellQueued(d) && k < |s.queue| && i < |d.queue|
    requires d == Detach(s, s.queue[k]) && d.queue == RemoveAt(s.queue, k)
    ensures Need(d, i) == Need(s, if i < k then i else i + 1)
  {
    var j := if i < k then i else i + 1;
    assert d.queue[i] == s.queue[j] && s.queue[j] != s.queue[k] && CanReceive(s, s.queue[j]);
  }

  lemma RemoveAtSkips<T>(q: seq<T>, k: nat)
    requires k < |q|
    ensures forall j :: 0 <= j < |q| - 1 ==> RemoveAt(q, k)[j] == q[if j < k then j else j + 1]
  {
  }

  lemma CancelQueued(s: Sem, d: Sem, k: nat, p: nat)
    requires WellQueued(s) && WellQueued(d) && k < |s.queue| && p < |s.queue| && k != p
    requires d == Detach(s, s.queue[k]) && d.queue == RemoveAt(s.queue, k)
    ensures s.queue[p] in d.queue
    ensures Missing(d, s.queue[p]) == Ahead(s, p + 1) - if k < p then Need(s, k) else 0
  {
    hide WellQueued, Detach, RemoveAt, Need, Ahead, Missing;
    RemoveAtSkips(s.queue, k);
    forall i | 0 <= i < |d.queue|
      ensures Need(d, i) == Need(s, if i < k then i else i + 1)
    {
      NeedAfterCancel(s, d, k, i);
    }
    var q := if p < k then p else p - 1;
    assert d.queue[q] == s.queue[p];
    MissingAtPlace(d, q);
    AheadWithout(s, d, k, q + 1);
  }

  lemma CallerKeepsLine(t: System, op: Op)
    requires Inv(t.sem) && Enabled(t, op) && !op.DropFuture? && !op.CloseAll? && !op.Add? && !op.DropPermit?
    ensures Inv(Step(t, op).sem) && SameLine(t.sem, Step(t, op).sem)
  {
    var s, r := t.sem, Step(t, op).sem;
    assert WellQueued(r);
    forall k | 0 <= k < |s.queue|
      ensures r.queue[k] == s.queue[k] && Need(r, k) == Need(s, k)
    {
      assert Enqueued(s, s.queue[k]) && CanReceive(s, s.queue[k]);
    }
  }

  // Nobody cancels future id or closes the semaphore.
  predicate Undisturbed(op: Op, id: nat) {
    !op.CloseAll? && op != DropFuture(id)
  }

  // What an operation takes away from the permits that future id waits for by cancelling another.
  function ReliefOf(t: System, op: Op, id: nat): nat
    requires Inv(t.sem)
  {
    if op.DropFuture? && id in t.sem.queue then Relief(t.sem, op.id, id) else 0
  }

  // What every operation does to the permits a queued future waits for, whatever the waiters want: a
  // cancellation ahead takes that waiter's need away; the future is completed by exactly the operation
  // that hands out all that is missing then; and otherwise every permit that is handed out or created
  // is one permit less to wait for.
  lemma StepMissing(t: System, op: Op, id: nat)
    requires Inv(t.sem) && Enabled(t, op) && id in t.sem.queue && Undisturbed(op, id)
    ensures WellQueued(Step(t, op).sem)
    ensures var m := Missing(t.sem, id) - ReliefOf(t, op, id);
            && m > 0
            && (id !in Step(t, op).sem.queue <==> Handed(t, op) >= m)
            && (id in Step(t, op).sem.queue ==>
                  && Missing(Step(t, op).sem, id) == m - Handed(t, op) - DriftOf(t, op)
                  && (DriftOf(t, op) == 0 <==> Fits(HandedTo(t, op), Handed(t, op))))
  {
    assert WellQueued(t.sem) && WellQueued(Step(t, op).sem);
    hide Inv, WellQueued, Drift, Fits, AddPermits, Missing, Detach, PollAcquire;
    WaitingMeansMissing(t.sem, id);
    match op
    case DropFuture(j) =>
      CancelAhead(t.sem, j, id);
      WaitingMeansMissing(Detach(t.sem, j), id);
      ExactWaitingBound(Detach(t.sem, j), t.sem.futs[j].permits, id);
    case Add(n) =>
      ExactWaitingBound(t.sem, n, id);
    case DropPermit(k) =>
      ExactWaitingBound(t.sem, t.issued[k], id);
    case CloseAll =>
    case _ =>
      CallerKeepsLine(t, op);
      MissingInSameLine(t.sem, Step(t, op).sem, id);
      NothingHandedOut(t.sem);
  }

  function HandedIn(t: System, ops: seq<Op>): nat
    requires Inv(t.sem) && Possible(t, ops)
    decreases |ops|
  {
    if ops == [] then 0 else Handed(t, ops[0]) + HandedIn(Step(t, ops[0]), ops[1..])
  }

  function ReliefIn(t: System, ops: seq<Op>, id: nat): nat
    requires Inv(t.sem) && Possible(t, ops)
    decreases |ops|
  {
    if ops == [] then 0 else ReliefOf(t, ops[0], id) + ReliefIn(Step(t, ops[0]), ops[1..], id)
  }

  lemma {:induction false} AddLeavesOthers(s: Sem, n: nat, id: nat)
    requires WellQueued(s) && id < |s.futs| && id !in s.queue
    ensures var r := AddPermits(s, n);
            |r.futs| == |s.futs| && r.futs[id] == s.futs[id] && id !in r.queue
    decreases |s.queue|
  {
    if n > 0 && s.queue != [] && Need(s, 0) <= n {
      AddLeavesOthers(Grant(s), n - Need(s, 0), id);
    }
  }

  // The future has been polled and is not queued.
  predicate LeftQueue(s: Sem, id: nat) {
    id < |s.futs| && !s.futs[id].state.Inert? && id !in s.queue
  }

  lemma StepKeepsLeft(t: System, op: Op, id: nat)
    requires Inv(t.sem) && Enabled(t, op) && LeftQueue(t.sem, id)
    ensures LeftQueue(Step(t, op).sem, id)
  {
    match op
    case DropFuture(j) =>
      DetachKeepsInv(t.sem, j);
      assert !Enqueued(t.sem, id);
      assert !Enqueued(Detach(t.sem, j), id);
      AddLeavesOthers(Detach(t.sem, j), t.sem.futs[j].permits, id);
    case Add(n) => AddLeavesOthers(t.sem, n, id);
    case DropPermit(k) => AddLeavesOthers(t.sem, t.issued[k], id);
    case _ =>
  }

  // A future is queued at most once in its life.
  lemma {:induction false} NotQueuedAgain(t: System, ops: seq<Op>, id: nat)
    requires Inv(t.sem) && Possible(t, ops) && LeftQueue(t.sem, id)
    ensures LeftQueue(Run(t, ops).sem, id)
    decreases |ops|
  {
    hide Inv, Step, Enabled, LeftQueue;
    if ops != [] {
      StepKeepsLeft(t, ops[0], id);
      NotQueuedAgain(Step(t, ops[0]), ops[1..], id);
    }
  }

  lemma LeavingMeansLeft(t: System, op: Op, id: nat)
    requires Inv(t.sem) && Enabled(t, op) && id in t.sem.queue && id !in Step(t, op).sem.queue
    requires Undisturbed(op, id)
    ensures LeftQueue(Step(t, op).sem, id)
  {
    assert Enqueued(t.sem, id);
    match op
    case DropFuture(j) =>
      DetachKeepsInv(t.sem, j);
      assert Enqueued(Detach(t.sem, j), id);
      ExactWaitingBound(Detach(t.sem, j), t.sem.futs[j].permits, id);
    case Add(n) => ExactWaitingBound(t.sem, n, id);
    case DropPermit(k) => ExactWaitingBound(t.sem, t.issued[k], id);
    case _ => CallerKeepsLine(t, op);
  }

  // ---------- Whole runs ----------

  predicate AllUndisturbed(ops: seq<Op>, id: nat) {
    forall i :: 0 <= i < |ops| ==> Undisturbed(ops[i], id)
  }

  // A future that is queued at the end has been queued all the time.
  lemma {:induction false} QueuedThroughout(t: System, ops: seq<Op>, id: nat)
    requires Inv(t.sem) && Possible(t, ops) && AllUndisturbed(ops, id) && ops != []
    requires id in t.sem.queue && id !in Step(t, ops[0]).sem.queue
    ensures id !in Run(t, ops).sem.queue
  {
    var u := Step(t, ops[0]);
    LeavingMeansLeft(t, ops[0], id);
    NotQueuedAgain(u, ops[1..], id);
    hide Inv, Step, Enabled;
    LeftIsOut(Run(u, ops[1..]).sem, id);
  }

  // The exact ledger of waiting over every run and for every mix of request sizes: while a future is
  // queued, what is missing for it is what was missing at the beginning, less what was handed out,
  // less what cancellations ahead took away, less the permits that were created.
  lemma {:induction false} WaitingLedger(t: System, ops: seq<Op>, id: nat)
    requires Inv(t.sem) && Possible(t, ops) && AllUndisturbed(ops, id)
    requires id in t.sem.queue && id in Run(t, ops).sem.queue
    ensures Missing(Run(t, ops).sem, id)
            == Missing(t.sem, id) - HandedIn(t, ops) - ReliefIn(t, ops, id) - DriftIn(t, ops)
    decreases |ops|
  {
    hide Inv, WellQueued, Step, Enabled, Missing, Handed, DriftOf, ReliefOf, Undisturbed;
    if ops != [] {
      var u := Step(t, ops[0]);
      assert Undisturbed(ops[0], id);
      StepMissing(t, ops[0], id);
      if id in u.sem.queue {
        WaitingLedger(u, ops[1..], id);
      } else {
        QueuedThroughout(t, ops, id);
      }
    }
  }

  // Where nobody asks for more than two permits, a future is still queued after a run exactly when
  // less was handed out, and taken away by cancellations ahead, than was missing at the beginning;
  // and then just the difference is missing.
  lemma {:induction false} BoundedWaiting(t: System, ops: seq<Op>, id: nat)
    requires Inv(t.sem) && Possible(t, ops) && AllUndisturbed(ops, id) && id in t.sem.queue
    requires WantsAtMostTwo(t.sem) && forall i :: 0 <= i < |ops| ==> SmallBuild(ops[i])
    ensures var gone := HandedIn(t, ops) + ReliefIn(t, ops, id);
            && (id in Run(t, ops).sem.queue <==> gone < Missing(t.sem, id))
            && (id in Run(t, ops).sem.queue ==> Missing(Run(t, ops).sem, id) == Missing(t.sem, id) - gone)
    decreases |ops|
  {
    hide Inv, WellQueued, Step, Enabled, Missing, WantsAtMostTwo, Handed, HandedTo, DriftOf, ReliefOf, Undisturbed;
    WaitingIsMissing(t, id);
    if ops != [] {
      var u := Step(t, ops[0]);
      assert Undisturbed(ops[0], id);
      SmallHandsFit(t, ops[0]);
      StepMissing(t, ops[0], id);
      StepKeepsSmall(t, ops[0]);
      if id in u.sem.queue {
        BoundedWaiting(u, ops[1..], id);
      } else {
        QueuedThroughout(t, ops, id);
      }
    }
  }

  lemma WaitingIsMissing(t: System, id: nat)
    requires Inv(t.sem)
    ensures WellQueued(t.sem) && (Missing(t.sem, id) > 0 <==> id in t.sem.queue)
  {
    WaitingMeansMissing(t.sem, id);
  }

  lemma LeftIsOut(s: Sem, id: nat)
    requires LeftQueue(s, id)
    ensures id !in s.queue
  {
  }
}
