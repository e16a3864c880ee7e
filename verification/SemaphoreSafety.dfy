/** Every operation keeps the semaphore's invariant, and what follows for a single call: permits are
    never available while somebody waits, nobody overtakes the queue, and a future that resolves
    hands out exactly the permits it asked for. */
module SemaphoreSafety {
  import opened Basics
  import opened SemaphoreModel

  lemma TryAcquireKeepsInv(s: Sem, strict: bool, n: nat)
    requires Inv(s)
    ensures Inv(TryAcquire(s, strict, n).0)
  {
    var r := TryAcquire(s, strict, n).0;
    assert forall id :: Enqueued(r, id) == Enqueued(s, id);
  }

  lemma RemoveKeepsInv(s: Sem, n: nat)
    requires Inv(s)
    ensures Inv(RemovePermits(s, n))
  {
    var r := RemovePermits(s, n);
    assert forall id :: Enqueued(r, id) == Enqueued(s, id);
  }

  lemma BuildKeepsInv(s: Sem, wants: usize)
    requires Inv(s)
    ensures Inv(BuildAcquire(s, wants))
  {
    var r := BuildAcquire(s, wants);
    assert forall id :: 0 <= id < |s.futs| ==> r.futs[id] == s.futs[id];
    assert forall id :: Enqueued(r, id) == Enqueued(s, id);
  }

  lemma ResolveKeepsInv(s: Sem, id: nat, permits: nat)
    requires Inv(s) && Live(s, id) && !Enqueued(s, id)
    requires permits == if s.closed then s.futs[id].permits else 0
    ensures Inv(Resolve(s, id, permits))
  {
    var r := Resolve(s, id, permits);
    assert forall i :: Enqueued(r, i) == Enqueued(s, i);
  }

  lemma EnqueueKeepsInv(s: Sem, id: nat, permits: nat, cx: Waker)
    requires Inv(s) && Live(s, id) && s.futs[id].state.Inert?
    requires !s.closed && s.permits == 0 && permits < s.futs[id].wants
    requires s.queue == [] || permits == 0
    ensures Inv(Enqueue(s, id, permits, cx))
  {
    var r := Enqueue(s, id, permits, cx);
    assert id !in s.queue;
    assert forall i :: Enqueued(r, i) == (i == id || Enqueued(s, i));
    assert forall i :: i in s.queue ==> i in r.queue;
    assert r.queue[|s.queue|] == id;
  }

  lemma PollKeepsInv(s: Sem, id: nat, cx: Waker)
    requires Inv(s) && Live(s, id)
    ensures Inv(PollAcquire(s, id, cx).0)
  {
    var f := s.futs[id];
    if s.closed {
      ResolveKeepsInv(s, id, f.permits);
    } else if f.state.Woken? {
      ResolveKeepsInv(s, id, 0);
    } else if f.state.Inert? {
      TryAcquireKeepsInv(s, false, f.wants);
      var (s1, r) := TryAcquire(s, false, f.wants);
      if r.Ok? && r.value == f.wants {
        ResolveKeepsInv(s1, id, 0);
      } else {
        EnqueueKeepsInv(s1, id, if r.Ok? then r.value else f.permits, cx);
      }
    }
  }

  lemma DropKeepsInv(s: Sem, id: nat)
    requires Inv(s) && Live(s, id)
    ensures Inv(DropAcquire(s, id))
  {
    DetachKeepsInv(s, id);
    AddKeepsInv(Detach(s, id), s.futs[id].permits);
  }

  lemma CloseKeepsInv(s: Sem)
    requires Inv(s)
    ensures Inv(Close(s).0)
  {
    var r := Close(s).0;
    forall id | 0 <= id < |s.futs|
      ensures !Enqueued(r, id) && FutOk(r.futs[id], true)
    {
      if id in s.queue {
        var k := IndexOf(s.queue, id);
        assert Enqueued(s, s.queue[k]);
      }
    }
  }

  // ---------- No barging ----------

  // While anybody waits, nobody else obtains a permit: an immediate attempt fails, and a future
  // polled for the first time joins the tail and leaves everything else as it is.
  lemma NoBarging(s: Sem, n: nat, id: nat, cx: Waker)
    requires Inv(s) && s.queue != [] && n >= 1
    requires Live(s, id) && s.futs[id].state.Inert? && s.futs[id].wants >= 1
    ensures !s.closed && s.permits == 0
    ensures forall strict :: TryAcquire(s, strict, n) == (s, Err(NoPermits))
    ensures PollAcquire(s, id, cx).1 == Pending
    ensures PollAcquire(s, id, cx).0 ==
            s.(queue := s.queue + [id], futs := s.futs[id := s.futs[id].(state := Waiting, waker := Some(cx))])
  {
    assert Enqueued(s, s.queue[0]);
  }

  // ---------- Exact fulfilment ----------

  // The first time a future resolves successfully its permit counts exactly what was asked for,
  // and the future keeps nothing; on a closed semaphore no future resolves successfully.
  lemma ExactFulfilment(s: Sem, id: nat, cx: Waker)
    requires Inv(s) && Live(s, id)
    ensures var (s', p) := PollAcquire(s, id, cx);
            && (p.Ready? && p.result.Ok? && !s.futs[id].done ==> p.result.value == s.futs[id].wants)
            && (p.Ready? && p.result.Ok? && s.futs[id].done ==> p.result.value == 0)
            && (p.Ready? && p.result.Ok? ==> s'.futs[id].permits == 0 && !s.closed)
            && (p.Ready? && p.result.Err? <==> s.closed)
            && (p.Pending? <==> Enqueued(s', id))
            && (p.Ready? ==> s'.futs[id].done && s'.futs[id].state == Woken)
  {
    PollKeepsInv(s, id, cx);
  }

  // ---------- Closing ----------

  // Closing wakes exactly the queued futures, in queue order, and reports how many; no future's
  // permits change.
  lemma CloseWakesAll(s: Sem)
    requires Inv(s)
    ensures var (s', woken) := Close(s);
            && woken == |s.queue|
            && s'.closed && s'.queue == [] && s'.permits == s.permits
            && |s'.wakes| == |s.wakes| + woken && s.wakes <= s'.wakes
            && (forall k :: 0 <= k < woken ==>
                  s'.wakes[|s.wakes| + k].fut == s.queue[k]
                  && Some(s'.wakes[|s.wakes| + k].waker) == s.futs[s.queue[k]].waker)
            && |s'.futs| == |s.futs|
            && (forall id :: 0 <= id < |s.futs| ==>
                  s'.futs[id] == if Enqueued(s, id) then s.futs[id].(state := Woken) else s.futs[id])
  {
    forall k | 0 <= k < |s.queue|
      ensures Enqueued(s, s.queue[k]) && s.futs[s.queue[k]].waker.Some?
    {
      assert FutOk(s.futs[s.queue[k]], s.closed);
    }
    forall id | 0 <= id < |s.futs|
      ensures id in s.queue <==> Enqueued(s, id)
    {
      if id in s.queue {
        var k := IndexOf(s.queue, id);
        assert Enqueued(s, s.queue[k]);
      }
    }
  }
}
