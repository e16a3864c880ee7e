/** Arbitrary interleavings of the semaphore's operations, and the ledger of permits over them. */
module SemaphoreRuns {
  import opened Basics
  import opened SemaphoreModel
  import opened SemaphoreSafety
  import opened SemaphoreGrants

  // The semaphore together with the counts of all Permit values that callers hold.
  datatype System = System(sem: Sem, issued: seq<usize>)

  function NewSystem(permits: usize): (t: System)
    ensures Inv(t.sem)
  {
    System(NewSemaphore(permits), [])
  }

  // One call by the program that uses the semaphore.
  datatype Op =
    | Build(wants: usize)
    | PollFuture(id: nat, cx: Waker)
    | DropFuture(id: nat)
    | TryAcquireMany(n: usize)
    | Add(n: usize)
    | Remove(n: usize)
    | CloseAll
    | DropPermit(k: nat)
    | ForgetPermit(k: nat)

  // A call needs the value it is made on: ownership rules out every other call.
  predicate Enabled(t: System, op: Op) {
    match op
    case PollFuture(id, _) => Live(t.sem, id)
    case DropFuture(id) => Live(t.sem, id)
    case DropPermit(k) => k < |t.issued|
    case ForgetPermit(k) => k < |t.issued|
    case _ => true
  }

  function Step(t: System, op: Op): (r: System)
    requires Inv(t.sem) && Enabled(t, op)
    ensures Inv(r.sem)
  {
    match op
    case Build(wants) =>
      BuildKeepsInv(t.sem, wants);
      t.(sem := BuildAcquire(t.sem, wants))
    case PollFuture(id, cx) =>
      PollKeepsInv(t.sem, id, cx);
      ExactFulfilment(t.sem, id, cx);
      var (s, p) := PollAcquire(t.sem, id, cx);
      System(s, if p.Ready? && p.result.Ok? then PermitIsWord(t.sem, id, cx); t.issued + [p.result.value] else t.issued)
    case DropFuture(id) =>
      DropKeepsInv(t.sem, id);
      t.(sem := DropAcquire(t.sem, id))
    case TryAcquireMany(n) =>
      TryAcquireKeepsInv(t.sem, true, n);
      var (s, r) := TryAcquire(t.sem, true, n);
      System(s, if r.Ok? then t.issued + [n] else t.issued)
    case Add(n) =>
      AddKeepsInv(t.sem, n);
      t.(sem := AddPermits(t.sem, n))
    case Remove(n) =>
      RemoveKeepsInv(t.sem, n);
      t.(sem := RemovePermits(t.sem, n))
    case CloseAll =>
      CloseKeepsInv(t.sem);
      t.(sem := Close(t.sem).0)
    case DropPermit(k) =>
      AddKeepsInv(t.sem, t.issued[k]);
      System(AddPermits(t.sem, t.issued[k]), RemoveAt(t.issued, k))
    case ForgetPermit(k) =>
      t.(issued := RemoveAt(t.issued, k))
  }

  lemma PermitIsWord(s: Sem, id: nat, cx: Waker)
    requires Inv(s) && Live(s, id) && PollAcquire(s, id, cx).1.Ready? && PollAcquire(s, id, cx).1.result.Ok?
    ensures PollAcquire(s, id, cx).1.result.value <= USIZE_MAX
  {
    ExactFulfilment(s, id, cx);
    assert FutOk(s.futs[id], s.closed);
  }

  // The calls can be made one after the other.
  predicate Possible(t: System, ops: seq<Op>)
    requires Inv(t.sem)
    decreases |ops|
  {
    ops == [] || (Enabled(t, ops[0]) && Possible(Step(t, ops[0]), ops[1..]))
  }

  function Run(t: System, ops: seq<Op>): (r: System)
    requires Inv(t.sem) && Possible(t, ops)
    ensures Inv(r.sem)
    decreases |ops|
  {
    if ops == [] then t else Run(Step(t, ops[0]), ops[1..])
  }

  lemma RunCons(t: System, op: Op, ops: seq<Op>)
    requires Inv(t.sem) && Enabled(t, op) && Possible(Step(t, op), ops)
    ensures Possible(t, [op] + ops) && Run(t, [op] + ops) == Run(Step(t, op), ops)
  {
    hide Inv, Enabled, Step;
    assert ([op] + ops)[1..] == ops;
  }

  lemma {:induction false} RunAppend(t: System, a: seq<Op>, b: seq<Op>)
    requires Inv(t.sem) && Possible(t, a) && Possible(Run(t, a), b)
    ensures Possible(t, a + b) && Run(t, a + b) == Run(Run(t, a), b)
    decreases |a|
  {
    hide Inv, Step, Enabled;
    if a == [] {
      assert a + b == b;
    } else {
      assert (a + b)[0] == a[0] && (a + b)[1..] == a[1..] + b;
      RunAppend(Step(t, a[0]), a[1..], b);
    }
  }

  // ---------- The ledger ----------

  function Total(t: System): nat {
    Outstanding(t.sem) + Sum(t.issued)
  }

  function Added(op: Op): nat {
    if op.Add? then op.n else 0
  }

  // Permits that leave the accounting for good.
  function Withdrawn(t: System, op: Op): nat
    requires Enabled(t, op)
  {
    match op
    case Remove(n) => Min(n, t.sem.permits)
    case ForgetPermit(k) => t.issued[k]
    case _ => 0
  }

  // The state and amount of the call of add_permits that an operation makes, if it makes one.
  function HandedTo(t: System, op: Op): (r: Sem)
    requires Inv(t.sem) && Enabled(t, op)
    ensures WellQueued(r)
  {
    if op.DropFuture? then DetachKeepsInv(t.sem, op.id); Detach(t.sem, op.id) else t.sem
  }

  function Handed(t: System, op: Op): nat
    requires Enabled(t, op)
  {
    match op
    case Add(n) => n
    case DropFuture(id) => t.sem.futs[id].permits
    case DropPermit(k) => t.issued[k]
    case _ => 0
  }

  // Permits created (or, if negative, lost) by an operation.
  function DriftOf(t: System, op: Op): int
    requires Inv(t.sem) && Enabled(t, op)
  {
    Drift(HandedTo(t, op), Handed(t, op))
  }

  // Every permit the operation hands out fits its receiver, and the pool does not overflow.
  predicate Exact(t: System, op: Op)
    requires Inv(t.sem) && Enabled(t, op)
  {
    var (s, n) := (HandedTo(t, op), Handed(t, op));
    Fits(s, n) && (s.queue == [] ==> s.permits + n <= USIZE_MAX)
  }

  lemma HeldAfterAppend(futs: seq<Fut>, f: Fut)
    ensures Sum(Holdings(futs + [f])) == Sum(Holdings(futs)) + f.permits
  {
    assert Holdings(futs + [f]) == Holdings(futs) + [f.permits];
    SumAppend(Holdings(futs), f.permits);
  }

  lemma PollLedger(s: Sem, id: nat, cx: Waker)
    requires Inv(s) && Live(s, id)
    ensures var (s', p) := PollAcquire(s, id, cx);
            Outstanding(s') + (if p.Ready? && p.result.Ok? then p.result.value else 0) == Outstanding(s)
  {
    var f := s.futs[id];
    HeldAfterUpdate(s.futs, id, PollAcquire(s, id, cx).0.futs[id]);
    assert s.futs[id := f] == s.futs;
  }

  lemma DropLedger(s: Sem, id: nat)
    requires Inv(s) && Live(s, id)
    ensures Outstanding(DropAcquire(s, id)) == Outstanding(s) + DriftOf(System(s, []), DropFuture(id))
  {
    DetachKeepsInv(s, id);
    HeldAfterUpdate(s.futs, id, s.futs[id].(permits := 0, live := false));
    AddPermitsLedger(Detach(s, id), s.futs[id].permits);
  }

  lemma CloseLedger(s: Sem)
    requires Inv(s)
    ensures Outstanding(Close(s).0) == Outstanding(s)
  {
    CloseWakesAll(s);
    assert Holdings(Close(s).0.futs) == Holdings(s.futs);
  }

  lemma NothingHandedOut(s: Sem)
    requires WellQueued(s)
    ensures Drift(s, 0) == 0 && Fits(s, 0)
  {
    PrefixZero(s, 0);
  }

  // The exact ledger of every operation, for every request size.
  lemma StepLedger(t: System, op: Op)
    requires Inv(t.sem) && Enabled(t, op)
    ensures Total(Step(t, op)) == Total(t) + Added(op) - Withdrawn(t, op) + DriftOf(t, op)
  {
    if op.PollFuture? {
      PollStepLedger(t, op.id, op.cx);
    } else if op.DropPermit? || op.ForgetPermit? {
      PermitStepLedger(t, op);
    } else {
      SemStepLedger(t, op);
    }
  }

  lemma PollStepLedger(t: System, id: nat, cx: Waker)
    requires Inv(t.sem) && Live(t.sem, id)
    ensures var op := PollFuture(id, cx);
            Total(Step(t, op)) == Total(t) + Added(op) - Withdrawn(t, op) + DriftOf(t, op)
  {
    assert WellQueued(t.sem);
    hide Inv, WellQueued, PollAcquire, AddPermits, Drift, Outstanding, Sum;
    NothingHandedOut(t.sem);
    PollLedger(t.sem, id, cx);
    var p := PollAcquire(t.sem, id, cx).1;
    if p.Ready? && p.result.Ok? {
      PermitIsWord(t.sem, id, cx);
      SumAppend(t.issued, p.result.value);
    }
  }

  lemma PermitStepLedger(t: System, op: Op)
    requires Inv(t.sem) && Enabled(t, op) && (op.DropPermit? || op.ForgetPermit?)
    ensures Total(Step(t, op)) == Total(t) + Added(op) - Withdrawn(t, op) + DriftOf(t, op)
  {
    assert WellQueued(t.sem);
    hide Inv, WellQueued, AddPermits, Drift, Outstanding, Sum, RemoveAt;
    NothingHandedOut(t.sem);
    AddPermitsLedger(t.sem, t.issued[op.k]);
    SumRemoveAt(t.issued, op.k);
  }

  // The operations that only concern the semaphore.
  lemma SemStepLedger(t: System, op: Op)
    requires Inv(t.sem) && Enabled(t, op) && !op.PollFuture? && !op.DropPermit? && !op.ForgetPermit?
    ensures Total(Step(t, op)) == Total(t) + Added(op) - Withdrawn(t, op) + DriftOf(t, op)
  {
    var s := t.sem;
    assert WellQueued(s);
    hide Inv, WellQueued, DropAcquire, Close, AddPermits, Drift, Detach, Holdings, Sum;
    NothingHandedOut(s);
    match op
    case Build(wants) =>
      HeldAfterAppend(s.futs, Fut(wants, Inert, 0, None, false, true));
    case DropFuture(id) =>
      DropLedger(s, id);
    case TryAcquireMany(n) =>
      SumAppend(t.issued, n);
    case Add(n) =>
      AddPermitsLedger(s, n);
    case Remove(n) =>
    case CloseAll =>
      CloseLedger(s);
  }

  // Accounting is exact for an operation exactly when what it hands out fits.
  lemma StepConserves(t: System, op: Op)
    requires Inv(t.sem) && Enabled(t, op)
    ensures Total(Step(t, op)) == Total(t) + Added(op) - Withdrawn(t, op) <==> Exact(t, op)
  {
    hide Inv, Step, Total;
    StepLedger(t, op);
    HandedIsWord(t, op);
    var (s, n) := (HandedTo(t, op), Handed(t, op));
    AddPermitsConserves(s, n);
    AddPermitsLedger(s, n);
  }

  lemma HandedIsWord(t: System, op: Op)
    requires Inv(t.sem) && Enabled(t, op)
    ensures Handed(t, op) <= USIZE_MAX
  {
    if op.DropFuture? {
      assert FutOk(t.sem.futs[op.id], t.sem.closed);
    }
  }

  // Sums of the step amounts over a run.
  function AddedIn(ops: seq<Op>): nat {
    if ops == [] then 0 else Added(ops[0]) + AddedIn(ops[1..])
  }

  function WithdrawnIn(t: System, ops: seq<Op>): nat
    requires Inv(t.sem) && Possible(t, ops)
    decreases |ops|
  {
    if ops == [] then 0 else Withdrawn(t, ops[0]) + WithdrawnIn(Step(t, ops[0]), ops[1..])
  }

  function DriftIn(t: System, ops: seq<Op>): int
    requires Inv(t.sem) && Possible(t, ops)
    decreases |ops|
  {
    if ops == [] then 0 else DriftOf(t, ops[0]) + DriftIn(Step(t, ops[0]), ops[1..])
  }

  // The ledger of every run, for every mix of request sizes.
  lemma {:induction false} RunLedger(t: System, ops: seq<Op>)
    requires Inv(t.sem) && Possible(t, ops)
    ensures Total(Run(t, ops)) == Total(t) + AddedIn(ops) - WithdrawnIn(t, ops) + DriftIn(t, ops)
    decreases |ops|
  {
    hide Inv, Step, Total, Enabled, DriftOf;
    if ops != [] {
      StepLedger(t, ops[0]);
      RunLedger(Step(t, ops[0]), ops[1..]);
    }
  }

  // Nobody asks for more than two permits.
  predicate SmallBuild(op: Op) {
    op.Build? ==> op.wants <= 2
  }

  lemma StepKeepsSmall(t: System, op: Op)
    requires Inv(t.sem) && Enabled(t, op) && WantsAtMostTwo(t.sem) && SmallBuild(op)
    ensures WantsAtMostTwo(Step(t, op).sem)
  {
    assert WellQueued(t.sem);
    hide Inv, WellQueued;
    match op
    case DropFuture(id) =>
      DetachKeepsInv(t.sem, id);
      AddKeepsWants(Detach(t.sem, id), t.sem.futs[id].permits);
    case Add(n) =>
      AddKeepsWants(t.sem, n);
    case DropPermit(k) =>
      AddKeepsWants(t.sem, t.issued[k]);
    case _ =>
  }

  lemma {:induction false} AddKeepsWants(s: Sem, n: nat)
    requires WellQueued(s)
    ensures var r := AddPermits(s, n);
            |r.futs| == |s.futs| && forall id :: 0 <= id < |s.futs| ==> r.futs[id].wants == s.futs[id].wants
    decreases |s.queue|
  {
    if n > 0 && s.queue != [] && Need(s, 0) <= n {
      AddKeepsWants(Grant(s), n - Need(s, 0));
    }
  }

  lemma SmallStepIsExact(t: System, op: Op)
    requires Inv(t.sem) && Enabled(t, op) && WantsAtMostTwo(t.sem)
    requires Total(t) + Added(op) <= USIZE_MAX
    ensures Exact(t, op)
  {
    if op.DropFuture? {
      DetachKeepsInv(t.sem, op.id);
      SumAtLeast(Holdings(t.sem.futs), op.id);
    } else if op.DropPermit? {
      SumAtLeast(t.issued, op.k);
    }
    SmallHandsFit(t, op);
  }

  lemma SmallHandsFit(t: System, op: Op)
    requires Inv(t.sem) && Enabled(t, op) && WantsAtMostTwo(t.sem)
    ensures Fits(HandedTo(t, op), Handed(t, op))
  {
    SmallRequestsFit(HandedTo(t, op), Handed(t, op));
  }

  // Conservation over all runs: as long as nobody asks for more than two permits at a time and the
  // permits that exist fit a machine word, no permit is ever created or lost.
  lemma {:induction false} RunConserves(t: System, ops: seq<Op>)
    requires Inv(t.sem) && Possible(t, ops) && WantsAtMostTwo(t.sem)
    requires forall i :: 0 <= i < |ops| ==> SmallBuild(ops[i])
    requires Total(t) + AddedIn(ops) <= USIZE_MAX
    ensures Total(Run(t, ops)) == Total(t) + AddedIn(ops) - WithdrawnIn(t, ops)
    decreases |ops|
  {
    hide Inv, Step, Total, Enabled, Exact, WantsAtMostTwo;
    if ops != [] {
      SmallStepIsExact(t, ops[0]);
      StepConserves(t, ops[0]);
      StepKeepsSmall(t, ops[0]);
      RunConserves(Step(t, ops[0]), ops[1..]);
    }
  }

  // The same for a semaphore from its creation on.
  lemma NewRunConserves(permits: usize, ops: seq<Op>)
    requires Possible(NewSystem(permits), ops)
    requires forall i :: 0 <= i < |ops| ==> SmallBuild(ops[i])
    requires permits + AddedIn(ops) <= USIZE_MAX
    ensures var t := NewSystem(permits);
            Total(Run(t, ops)) == permits + AddedIn(ops) - WithdrawnIn(t, ops)
  {
    var t := NewSystem(permits);
    assert Holdings(t.sem.futs) == [];
    RunConserves(t, ops);
  }

  // ---------- Why larger requests are not conserved ----------

  // The only future wants `wants` permits, is queued, and holds `held`.
  function FirstAsks(wants: usize, held: nat, cx: Waker): System {
    System(Sem(0, false, [0], [Fut(wants, Waiting, held, Some(cx), false, true)], []), [])
  }

  lemma FirstAsksIsOk(wants: usize, held: nat, cx: Waker)
    requires held < wants
    ensures var s := FirstAsks(wants, held, cx).sem;
            Inv(s) && Need(s, 0) == wants - held && Outstanding(s) == held
  {
    var s := FirstAsks(wants, held, cx).sem;
    assert Enqueued(s, s.queue[0]) && s.queue[0] == 0;
    assert Holdings(s.futs) == [held];
    assert Sum([held]) == Sum([]) + held by {
      SumAppend([], held);
      assert [] + [held] == [held];
    }
  }

  // It is what its first poll leads to, on a semaphore with fewer permits than it wants.
  lemma FirstAsksIsReached(wants: usize, held: usize, cx: Waker)
    requires held < wants
    ensures var ops := [Build(wants), PollFuture(0, cx)];
            Possible(NewSystem(held), ops) && Run(NewSystem(held), ops) == FirstAsks(wants, held, cx)
  {
    var build: Op := Build(wants);
    var t := Step(NewSystem(held), build);
    RunCons(t, PollFuture(0, cx), []);
    RunCons(NewSystem(held), build, [PollFuture(0, cx)]);
    assert [build] + [PollFuture(0, cx)] == [Build(wants), PollFuture(0, cx)];
    assert Step(t, PollFuture(0, cx)).sem.futs == FirstAsks(wants, held, cx).sem.futs;
  }

  lemma AddToFirst(wants: usize, held: nat, n: usize, cx: Waker)
    requires held < wants && 0 < n < wants - held
    ensures Inv(FirstAsks(wants, held, cx).sem)
    ensures Step(FirstAsks(wants, held, cx), Add(n)) == FirstAsks(wants, wants - held - n, cx)
  {
    FirstAsksIsOk(wants, held, cx);
    AddGrantsPart(FirstAsks(wants, held, cx).sem, n);
    hide Inv, WellQueued, AddPermits;
    assert GrantPart(FirstAsks(wants, held, cx).sem, n).futs == FirstAsks(wants, wants - held - n, cx).sem.futs;
  }

  // A future wants more permits than a new semaphore has, takes those, and then is given n more but
  // not all: it ends up with as many as it still misses, which is what exists exactly when it wants
  // twice that.
  lemma PartialGrant(wants: usize, held: usize, n: usize, cx: Waker)
    requires held < wants && 0 < n < wants - held
    ensures var ops := [Build(wants), PollFuture(0, cx), Add(n)];
            && Possible(NewSystem(held), ops)
            && var t := Run(NewSystem(held), ops);
            && |t.sem.futs| == 1 && t.sem.futs[0].permits == wants - held - n
            && Total(t) == wants - held - n
            && (Total(t) == held + n <==> wants == 2 * (held + n))
  {
    var (first, add: seq<Op>) := ([Build(wants), PollFuture(0, cx)], [Add(n)]);
    var t := FirstAsks(wants, held, cx);
    FirstAsksIsReached(wants, held, cx);
    AddToFirst(wants, held, n, cx);
    FirstAsksIsOk(wants, wants - held - n, cx);
    RunCons(t, Add(n), []);
    assert [Add(n)] + [] == add;
    RunAppend(NewSystem(held), first, add);
    assert first + add == [Build(wants), PollFuture(0, cx), Add(n)];
  }

  // A future that wants three permits and is given one ends up with two: a permit is created.
  // Given two it ends up with one: a permit is lost.
  lemma PartialGrantOfThree(cx: Waker)
    ensures Possible(NewSystem(0), [Build(3), PollFuture(0, cx), Add(1)])
    ensures Total(Run(NewSystem(0), [Build(3), PollFuture(0, cx), Add(1)])) == 2
    ensures Possible(NewSystem(0), [Build(3), PollFuture(0, cx), Add(2)])
    ensures Total(Run(NewSystem(0), [Build(3), PollFuture(0, cx), Add(2)])) == 1
  {
    PartialGrant(3, 0, 1, cx);
    PartialGrant(3, 0, 2, cx);
  }
}
