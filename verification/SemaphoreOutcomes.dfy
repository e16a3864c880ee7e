/** What a caller of the semaphore observes: the answer of every operation and everything it changes,
    from the state before the call, on every well-formed semaphore. */
module SemaphoreOutcomes {
  import opened Basics
  import opened SemaphoreModel
  import opened SemaphoreSafety
  import opened SemaphoreGrants
  import opened SemaphoreRuns
  import opened SemaphoreHistory

  // ---------- Single calls ----------

  // A strict acquisition succeeds exactly when the semaphore is open and the pool covers all of it;
  // otherwise it changes nothing, and the error says whether the semaphore is closed.
  lemma StrictAcquireExactly(s: Sem, n: nat)
    requires Inv(s)
    ensures var (r, a) := TryAcquire(s, true, n);
            && (a.Ok? <==> !s.closed && n <= s.permits)
            && (a.Ok? ==> a.value == n && r == s.(permits := s.permits - n))
            && (a.Err? ==> r == s && (a.error == Closed <==> s.closed))
  {
  }

  // One that may be served in part takes what there is, and fails only if there is nothing.
  lemma PartialAcquireExactly(s: Sem, n: nat)
    requires Inv(s)
    ensures var (r, a) := TryAcquire(s, false, n);
            && (a.Ok? <==> !s.closed && (n == 0 || s.permits > 0))
            && (a.Ok? ==> a.value == Min(n, s.permits) && r == s.(permits := s.permits - Min(n, s.permits)))
            && (a.Err? ==> r == s && (a.error == Closed <==> s.closed))
  {
  }

  lemma RemoveExactly(s: Sem, n: nat)
    requires Inv(s)
    ensures RemovePermits(s, n) == s.(permits := s.permits - Min(n, s.permits))
  {
  }

  // A new future wants what was asked for, holds nothing, and concerns nobody else.
  lemma BuildExactly(s: Sem, wants: usize)
    requires Inv(s)
    ensures var (r, id) := (BuildAcquire(s, wants), |s.futs|);
            && Live(r, id) && r.futs[id].wants == wants && r.futs[id].permits == 0 && r.futs[id].state.Inert?
            && r.futs[..id] == s.futs && |r.futs| == id + 1
            && r.permits == s.permits && r.closed == s.closed && r.queue == s.queue && r.wakes == s.wakes
  {
  }

  // Only future id, the pool and the end of the queue can differ after a poll of it.
  predicate PollFrame(s: Sem, r: Sem, id: nat)
    requires id < |s.futs|
  {
    && |r.futs| == |s.futs| && r.closed == s.closed && r.wakes == s.wakes
    && (forall j :: 0 <= j < |s.futs| && j != id ==> r.futs[j] == s.futs[j])
    && r.futs[id].wants == s.futs[id].wants && r.futs[id].live == s.futs[id].live
  }

  // On a closed semaphore a poll is refused, and takes no permit from the future or the pool: only
  // dropping the future returns what it holds.
  lemma ClosedPollExactly(s: Sem, id: nat, cx: Waker)
    requires Inv(s) && Live(s, id) && s.closed
    ensures var (r, p) := PollAcquire(s, id, cx);
            && p == Ready(Err(AcquireError)) && PollFrame(s, r, id)
            && r.permits == s.permits && r.queue == s.queue
            && r.futs[id].permits == s.futs[id].permits && r.futs[id].state.Woken?
  {
  }

  // A future that was woken resolves to what it holds, and keeps none of it.
  lemma WokenPollExactly(s: Sem, id: nat, cx: Waker)
    requires Inv(s) && Live(s, id) && !s.closed && s.futs[id].state.Woken?
    ensures var (r, p) := PollAcquire(s, id, cx);
            && p == Ready(Ok(s.futs[id].permits)) && PollFrame(s, r, id)
            && r.permits == s.permits && r.queue == s.queue
            && r.futs[id].permits == 0 && r.futs[id].state.Woken?
  {
  }

  // A queued future goes on waiting, and nothing changes, not even its waker.
  lemma QueuedPollExactly(s: Sem, id: nat, cx: Waker)
    requires Inv(s) && Enqueued(s, id)
    ensures !s.closed && PollAcquire(s, id, cx) == (s, Pending)
  {
    assert FutOk(s.futs[id], s.closed);
  }

  // A future that is polled for the first time resolves exactly when the pool covers its request, and
  // otherwise takes the whole pool and joins the end of the queue with its waker.
  lemma FirstPollExactly(s: Sem, id: nat, cx: Waker)
    requires Inv(s) && Live(s, id) && !s.closed && s.futs[id].state.Inert?
    ensures var (r, p) := PollAcquire(s, id, cx);
            var w := s.futs[id].wants;
            && PollFrame(s, r, id) && r.permits == s.permits - Min(w, s.permits)
            && (w <= s.permits ==>
                  p == Ready(Ok(w)) && r.queue == s.queue && r.futs[id].permits == 0 && r.futs[id].state.Woken?)
            && (w > s.permits ==>
                  && p == Pending && r.queue == s.queue + [id] && r.futs[id].permits == s.permits
                  && r.futs[id].state.Waiting? && r.futs[id].waker == Some(cx))
  {
    assert FutOk(s.futs[id], s.closed);
  }

  // Dropping a future takes it out of its place in the queue and nobody else, and then hands on what
  // it held, greedily.
  lemma DropExactly(s: Sem, id: nat)
    requires Inv(s) && Live(s, id)
    ensures var (d, n) := (Detach(s, id), s.futs[id].permits);
            && WellQueued(d) && DropAcquire(s, id) == HandOut(d, Prefix(d, n), Rest(d, n))
            && d.permits == s.permits && d.closed == s.closed && d.wakes == s.wakes && |d.futs| == |s.futs|
            && d.futs[id] == s.futs[id].(permits := 0, live := false)
            && (forall j :: 0 <= j < |s.futs| && j != id ==> d.futs[j] == s.futs[j])
            && (Enqueued(s, id) ==>
                  exists k :: 0 <= k < |s.queue| && s.queue[k] == id && d.queue == RemoveAt(s.queue, k))
            && (!Enqueued(s, id) ==> d.queue == s.queue)
  {
    DetachKeepsInv(s, id);
    AddPermitsIsGreedy(Detach(s, id), s.futs[id].permits);
    if Enqueued(s, id) {
      var k := DetachedQueue(s, id);
    }
  }

  // ---------- From the request to the permit ----------

  // acquire_many(wants) and a first poll issue a permit for exactly that, if and only if the semaphore
  // is open and the pool covers it; and then the pool is smaller by as much.
  lemma RequestAtOnce(t: System, wants: usize, cx: Waker)
    requires Inv(t.sem)
    ensures var ops := [Build(wants), PollFuture(|t.sem.futs|, cx)];
            && Possible(t, ops)
            && var u := Run(t, ops);
            && (u.issued == t.issued + [wants] <==> !t.sem.closed && wants <= t.sem.permits)
            && (u.issued == t.issued + [wants] || u.issued == t.issued)
            && u.sem.permits == t.sem.permits - (if t.sem.closed then 0 else Min(wants, t.sem.permits))
  {
    var (id, build: Op) := (|t.sem.futs|, Build(wants));
    var b := Step(t, build);
    BuildExactly(t.sem, wants);
    PollIssues(b, id, cx);
    hide Inv, Step, BuildAcquire, PollAcquire;
    RunCons(b, PollFuture(id, cx), []);
    RunCons(t, build, [PollFuture(id, cx)]);
    assert [build] + [PollFuture(id, cx)] == [Build(wants), PollFuture(id, cx)];
    assert |t.issued + [wants]| != |t.issued|;
  }

  lemma PollIssues(b: System, id: nat, cx: Waker)
    requires Inv(b.sem) && Live(b.sem, id) && b.sem.futs[id].state.Inert?
    ensures var (u, w) := (Step(b, PollFuture(id, cx)), b.sem.futs[id].wants);
            && u.issued == (if !b.sem.closed && w <= b.sem.permits then b.issued + [w] else b.issued)
            && u.sem.permits == b.sem.permits - (if b.sem.closed then 0 else Min(w, b.sem.permits))
  {
    if b.sem.closed {
      ClosedPollExactly(b.sem, id, cx);
    } else {
      FirstPollExactly(b.sem, id, cx);
    }
    hide Inv, PollAcquire;
  }

  // No poll of future id has been Ready on the run.
  predicate NeverReady(t: System, ops: seq<Op>, id: nat)
    requires Inv(t.sem) && Possible(t, ops)
    decreases |ops|
  {
    ops == [] || (!ReadyNow(t, ops[0], id) && NeverReady(Step(t, ops[0]), ops[1..], id))
  }

  predicate ReadyNow(t: System, op: Op, id: nat)
    requires Enabled(t, op)
  {
    op.PollFuture? && op.id == id && PollAcquire(t.sem, id, op.cx).1.Ready?
  }

  // Future id exists, asked for `wants`, and has not been Ready.
  predicate Unresolved(s: Sem, id: nat, wants: nat) {
    id < |s.futs| && s.futs[id].wants == wants && !s.futs[id].done
  }

  lemma {:induction false} AddKeepsUnresolved(s: Sem, n: nat, id: nat, wants: nat)
    requires WellQueued(s) && Unresolved(s, id, wants)
    ensures Unresolved(AddPermits(s, n), id, wants)
    decreases |s.queue|
  {
    if n > 0 && s.queue != [] && Need(s, 0) <= n {
      AddKeepsUnresolved(Grant(s), n - Need(s, 0), id, wants);
    }
  }

  lemma StepKeepsUnresolved(t: System, op: Op, id: nat, wants: nat)
    requires Inv(t.sem) && Enabled(t, op) && Unresolved(t.sem, id, wants) && !ReadyNow(t, op, id)
    ensures Unresolved(Step(t, op).sem, id, wants)
  {
    match op
    case DropFuture(j) =>
      DetachKeepsInv(t.sem, j);
      AddKeepsUnresolved(Detach(t.sem, j), t.sem.futs[j].permits, id, wants);
    case Add(n) => AddKeepsUnresolved(t.sem, n, id, wants);
    case DropPermit(k) => AddKeepsUnresolved(t.sem, t.issued[k], id, wants);
    case CloseAll => CloseWakesAll(t.sem);
    case _ =>
  }

  lemma {:induction false} RunKeepsUnresolved(t: System, ops: seq<Op>, id: nat, wants: nat)
    requires Inv(t.sem) && Possible(t, ops) && Unresolved(t.sem, id, wants) && NeverReady(t, ops, id)
    ensures Unresolved(Run(t, ops).sem, id, wants)
    decreases |ops|
  {
    hide Inv, Step, Enabled, Unresolved, ReadyNow;
    if ops != [] {
      StepKeepsUnresolved(t, ops[0], id, wants);
      RunKeepsUnresolved(Step(t, ops[0]), ops[1..], id, wants);
    }
  }

  // On every run, whatever happens between acquire_many(wants) and the first poll of its future that
  // is Ready: if that poll is Ok, it issues a permit for exactly `wants`.
  lemma RequestIsHonoured(t: System, wants: usize, ops: seq<Op>, cx: Waker)
    requires Inv(t.sem) && Possible(Step(t, Build(wants)), ops)
    requires var (b, id) := (Step(t, Build(wants)), |t.sem.futs|);
             NeverReady(b, ops, id) && Live(Run(b, ops).sem, id)
    ensures var u := Run(Step(t, Build(wants)), ops);
            var (v, p) := (Step(u, PollFuture(|t.sem.futs|, cx)), PollAcquire(u.sem, |t.sem.futs|, cx).1);
            p.Ready? && p.result.Ok? ==> p.result.value == wants && v.issued == u.issued + [wants]
  {
    var (b, id) := (Step(t, Build(wants)), |t.sem.futs|);
    BuildExactly(t.sem, wants);
    assert Unresolved(b.sem, id, wants);
    RunKeepsUnresolved(b, ops, id, wants);
    var u := Run(b, ops);
    ExactFulfilment(u.sem, id, cx);
    hide Inv, PollAcquire, Run, Possible, NeverReady;
    var p := PollAcquire(u.sem, id, cx).1;
    assert p.Ready? && p.result.Ok? ==> Step(u, PollFuture(id, cx)).issued == u.issued + [p.result.value];
  }
}
