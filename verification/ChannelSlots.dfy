/** Where the capacity of a channel is: in the pool, in the queue, in reservations, or in the hands of
    woken sends that have not been polled yet.  What every operation of the queue does to the sum. */
module ChannelSlots {
  import opened Basics
  import opened SemaphoreModel
  import opened SemaphoreSafety
  import opened SemaphoreGrants
  import opened SemaphoreRuns
  import opened ChannelModel

  // Every Acquire future of a channel asks for one permit; those alive have been polled at least
  // once but have not resolved, since they are dropped as soon as they do.
  predicate SlotFut(f: Fut) {
    f.wants == 1 && (f.live ==> !f.done && !f.state.Inert?)
  }

  predicate SlotFuts(s: Sem) {
    forall id :: 0 <= id < |s.futs| ==> SlotFut(s.futs[id])
  }

  // The units of capacity in circulation.
  function Units<T>(c: Chan<T>): nat {
    Outstanding(c.sem) + |c.elems| + c.reserved
  }

  ghost predicate Sound<T>(c: Chan<T>, total: nat) {
    Inv(c.sem) && SlotFuts(c.sem) && Units(c) == total <= USIZE_MAX
  }

  // ---------- The futures' identities ----------

  // r has the same futures as s, some of which may have been granted or woken.
  predicate SameFutures(s: Sem, r: Sem) {
    && |r.futs| == |s.futs|
    && forall id :: 0 <= id < |s.futs| ==>
         && r.futs[id].wants == s.futs[id].wants && r.futs[id].live == s.futs[id].live
         && r.futs[id].done == s.futs[id].done && r.futs[id].state.Inert? == s.futs[id].state.Inert?
  }

  lemma {:induction false} AddSameFutures(s: Sem, n: nat)
    requires Inv(s)
    ensures SameFutures(s, AddPermits(s, n)) && AddPermits(s, n).closed == s.closed
    decreases |s.queue|
  {
    if s.queue != [] {
      assert s.queue[0] in s.queue && Enqueued(s, s.queue[0]);
    }
    if n > 0 && s.queue != [] && Need(s, 0) <= n {
      GrantKeepsInv(s);
      AddSameFutures(Grant(s), n - Need(s, 0));
    }
  }

  lemma CloseSameFutures(s: Sem)
    requires Inv(s)
    ensures SameFutures(s, Close(s).0)
  {
    CloseWakesAll(s);
  }

  // All but future id are the same, and id is no longer alive.
  predicate OnlyDropped(s: Sem, r: Sem, id: nat) {
    && |r.futs| == |s.futs| && id < |s.futs| && !r.futs[id].live && r.futs[id].wants == s.futs[id].wants
    && forall j :: 0 <= j < |s.futs| && j != id ==>
         && r.futs[j].wants == s.futs[j].wants && r.futs[j].live == s.futs[j].live
         && r.futs[j].done == s.futs[j].done && r.futs[j].state.Inert? == s.futs[j].state.Inert?
  }

  lemma DropOnlyDrops(s: Sem, id: nat)
    requires Inv(s) && Live(s, id)
    ensures OnlyDropped(s, DropAcquire(s, id), id) && DropAcquire(s, id).closed == s.closed
  {
    DetachKeepsInv(s, id);
    AddSameFutures(Detach(s, id), s.futs[id].permits);
  }

  // ---------- Handing out and taking back one unit ----------

  predicate OneEach(s: Sem) {
    forall id :: 0 <= id < |s.futs| ==> s.futs[id].wants == 1
  }

  lemma GiveBack(s: Sem, n: nat)
    requires Inv(s) && OneEach(s) && Outstanding(s) + n <= USIZE_MAX
    ensures var r := AddPermits(s, n);
            Inv(r) && SameFutures(s, r) && r.closed == s.closed && Outstanding(r) == Outstanding(s) + n
  {
    AddKeepsInv(s, n);
    AddSameFutures(s, n);
    SmallRequestsFit(s, n);
    AddPermitsConserves(s, n);
  }

  lemma DropReturns(s: Sem, id: nat)
    requires Inv(s) && OneEach(s) && Live(s, id) && Outstanding(s) <= USIZE_MAX
    ensures var r := DropAcquire(s, id);
            Inv(r) && OnlyDropped(s, r, id) && r.closed == s.closed && Outstanding(r) == Outstanding(s)
  {
    DropOnlyDrops(s, id);
    DetachKeepsInv(s, id);
    HeldAfterUpdate(s.futs, id, s.futs[id].(permits := 0, live := false));
    GiveBack(Detach(s, id), s.futs[id].permits);
  }

  lemma TakeOne(s: Sem)
    requires Inv(s)
    ensures var (s', r) := TryAcquire(s, true, 1);
            Inv(s') && s'.futs == s.futs && s'.closed == s.closed
            && Outstanding(s') == Outstanding(s) - (if r.Ok? then 1 else 0)
            && (r.Ok? <==> !s.closed && s.permits > 0)
            && (r == Err(Closed) <==> s.closed)
  {
    TryAcquireKeepsInv(s, true, 1);
  }

  // ---------- The operations on the queue ----------

  lemma TrySendUnits<T>(c: Chan<T>, v: T, total: nat)
    requires Sound(c, total)
    ensures var (c', r) := TrySend(c, v);
            && Sound(c', total) && c'.sem.futs == c.sem.futs && c'.sem.closed == c.sem.closed
            && (r.Ok? ==> c'.elems == c.elems + [v])
            && (r.Err? ==> c' == c && (r.error == SendClosed(v) <==> c.sem.closed) && r.error.value == v)
            && (r.Ok? <==> !c.sem.closed && c.sem.permits > 0)
  {
    TakeOne(c.sem);
  }

  lemma TryReserveUnits<T>(c: Chan<T>, total: nat)
    requires Sound(c, total)
    ensures var (c', r) := TryReserve(c);
            && Sound(c', total) && c'.sem.futs == c.sem.futs && c'.sem.closed == c.sem.closed
            && (if r.Ok? then c'.elems == c.elems && c'.reserved == c.reserved + 1 else c' == c)
            && (r.Ok? <==> !c.sem.closed && c.sem.permits > 0)
            && (r.Err? ==> r.error == if c.sem.closed then SendClosed(()) else SendFull(()))
  {
    TakeOne(c.sem);
  }

  lemma UnreserveUnits<T>(c: Chan<T>, total: nat)
    requires Sound(c, total) && c.reserved > 0
    ensures Sound(Unreserve(c, false), total)
    ensures SameFutures(c.sem, Unreserve(c, false).sem) && Unreserve(c, false).sem.closed == c.sem.closed
  {
    GiveBack(c.sem, 1);
  }

  lemma SendReservedUnits<T>(c: Chan<T>, v: T, total: nat)
    requires Sound(c, total) && c.reserved > 0
    ensures Sound(SendReserved(c, v), total) && SendReserved(c, v).sem == c.sem
  {
  }

  lemma TryRecvUnits<T>(c: Chan<T>, counted: bool, total: nat)
    requires Sound(c, total)
    ensures var (c', r) := TryRecv(c, counted);
            && Sound(c', total) && SameFutures(c.sem, c'.sem) && c'.sem.closed == c.sem.closed
            && (r.Ok? ==> c.elems == [r.value] + c'.elems)
            && (r.Err? ==> c' == c && c.elems == [])
  {
    if c.elems != [] {
      GiveBack(c.sem, 1);
    }
  }

  lemma CloseUnits<T>(c: Chan<T>, counted: bool, total: nat)
    requires Sound(c, total)
    ensures Sound(CloseChannel(c, counted), total) && SameFutures(c.sem, CloseChannel(c, counted).sem)
  {
    CloseKeepsInv(c.sem);
    CloseSameFutures(c.sem);
    CloseLedger(c.sem);
  }

  // A poll that waits keeps the unit where it is; one that is granted has taken a unit out of the
  // semaphore for its caller; one that is refused has returned what the future held.
  lemma PollSlotUnits<T>(c: Chan<T>, id: nat, cx: Waker)
    requires Inv(c.sem) && OneEach(c.sem) && Live(c.sem, id) && !c.sem.futs[id].done && Outstanding(c.sem) <= USIZE_MAX
    ensures var (c', r) := PollSlot(c, id, cx);
            && Inv(c'.sem) && c' == c.(sem := c'.sem) && c'.sem.closed == c.sem.closed
            && Outstanding(c'.sem) == Outstanding(c.sem) - (if r.Granted? then 1 else 0)
            && (r.Waits? ==> SameButPolled(c.sem, c'.sem, id))
            && (!r.Waits? ==> OnlyDropped(c.sem, c'.sem, id))
            && (r.Refused? <==> c.sem.closed)
  {
    PollStaysLive(c.sem, id, cx);
    PollLedger(c.sem, id, cx);
    ExactFulfilment(c.sem, id, cx);
    PollSameFutures(c.sem, id, cx);
    var (s, p) := PollAcquire(c.sem, id, cx);
    if p.Ready? {
      hide Inv, PollAcquire;
      DropReturns(s, id);
    }
  }

  // Future id has been polled and is alive; nothing else about the futures has changed.
  predicate SameButPolled(s: Sem, r: Sem, id: nat) {
    && |r.futs| == |s.futs| && id < |s.futs| && r.futs[id].live && !r.futs[id].done && !r.futs[id].state.Inert?
    && r.futs[id].wants == s.futs[id].wants
    && forall j :: 0 <= j < |s.futs| && j != id ==> r.futs[j] == s.futs[j]
  }

  lemma PollSameFutures(s: Sem, id: nat, cx: Waker)
    requires Inv(s) && Live(s, id)
    ensures var (r, p) := PollAcquire(s, id, cx);
            && |r.futs| == |s.futs| && r.closed == s.closed && Live(r, id) && r.futs[id].wants == s.futs[id].wants
            && (forall j :: 0 <= j < |s.futs| && j != id ==> r.futs[j] == s.futs[j])
            && (p.Pending? ==> r.futs[id].done == s.futs[id].done && !r.futs[id].state.Inert?)
  {
  }

  // The first poll of a send or reserve creates its Acquire future.
  lemma BuildSlot(s: Sem)
    requires Inv(s) && SlotFuts(s)
    ensures var r := BuildAcquire(s, 1);
            && Inv(r) && OneEach(r) && Outstanding(r) == Outstanding(s) && r.closed == s.closed
            && |r.futs| == |s.futs| + 1 && Live(r, |s.futs|) && !r.futs[|s.futs|].done
            && forall j :: 0 <= j < |s.futs| ==> r.futs[j] == s.futs[j]
  {
    BuildKeepsInv(s, 1);
    HeldAfterAppend(s.futs, Fut(1, Inert, 0, None, false, true));
  }

  lemma AwaitSlotUnits<T>(c: Chan<T>, slot: Option<nat>, cx: Waker, total: nat)
    requires Sound(c, total) && (slot.Some? ==> Live(c.sem, slot.value))
    ensures var (c', r) := AwaitSlot(c, slot, cx);
            && Inv(c'.sem) && SlotFuts(c'.sem) && c' == c.(sem := c'.sem) && c'.sem.closed == c.sem.closed
            && Units(c') == total - (if r.Granted? then 1 else 0)
            && (r.Refused? <==> c.sem.closed)
  {
    StartIsLive(c, slot);
    BuildSlot(c.sem);
    hide Inv, PollSlot, BuildAcquire, Outstanding;
    var (b, id) := StartSlot(c, slot);
    PollSlotUnits(b, id, cx);
  }

  // ---------- Splitting ----------

  predicate NoLiveFuture(s: Sem) {
    forall id :: 0 <= id < |s.futs| ==> !s.futs[id].live
  }

  // Splitting a channel on which nothing is pending leaves the full capacity available and what is
  // queued on top of it: it conserves the capacity exactly when the queue is empty.
  lemma SplitUnits<T>(c: Chan<T>)
    requires Inv(c.sem) && SlotFuts(c.sem) && NoLiveFuture(c.sem) && c.reserved == 0
    requires c.maxCapacity <= USIZE_MAX
    ensures c.sem.permits <= c.maxCapacity <==> SetCounted(c).Some?
    ensures SetCounted(c).Some? ==>
              var c' := SetCounted(c).value;
              && Inv(c'.sem) && SlotFuts(c'.sem) && SameFutures(c.sem, c'.sem)
              && c'.sem.closed == c.sem.closed && c'.sem.permits == c.maxCapacity
              && Units(c') == c.maxCapacity + |c.elems|
  {
    NobodyHolds(c.sem);
    if c.sem.permits <= c.maxCapacity {
      GiveBack(c.sem, c.maxCapacity - c.sem.permits);
      NobodyHolds(AddPermits(c.sem, c.maxCapacity - c.sem.permits));
    }
  }

  lemma NobodyHolds(s: Sem)
    requires Inv(s) && NoLiveFuture(s)
    ensures Outstanding(s) == s.permits
  {
    assert forall id :: 0 <= id < |s.futs| ==> FutOk(s.futs[id], s.closed);
    SumOfZeros(Holdings(s.futs));
  }

  lemma EmptySemaphore(s: Sem)
    requires s.queue == [] && s.futs == [] && s.permits <= USIZE_MAX
    ensures Inv(s) && WellQueued(s) && Outstanding(s) == s.permits
  {
    assert Holdings(s.futs) == [];
  }
}
