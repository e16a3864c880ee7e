/** The bounded queue of src/queue.rs and the handles of src/bounded.rs as objects.  Every method is
    proved to do to the objects what the function of the same name in ChannelModel does to the value
    they represent. */
module ChannelHeap {
  import opened Basics
  import opened SemaphoreModel
  import opened SemaphoreGrants
  import opened SemaphoreSafety
  import opened SemaphoreHeap
  import opened MaskModel
  import opened MaskHeap
  import opened ChannelModel
  import opened ChannelSlots
  import S = SemaphoreModel
  import C = ChannelModel

  class Queue<T> {
    const mask: Mask
    const semaphore: Semaphore
    const maxCapacity: usize
    var elems: seq<T>
    var waker: Option<Waker>
    var reserved: usize

    // Every call made so far to a waker of the receiver.
    ghost var calls: seq<Waker>

    ghost function Repr(): (objects: set<object>)
      reads semaphore
      ensures this in objects && mask in objects
    {
      {this, mask} + semaphore.Repr()
    }

    // The value that the objects represent.
    ghost function View(): Chan<T>
      reads this, mask, semaphore, semaphore.waiters, semaphore.registry
    {
      Chan(semaphore.View(), elems, maxCapacity, reserved, mask.bits, waker, calls)
    }

    ghost predicate Valid()
      reads this, mask, semaphore, semaphore.waiters, semaphore.waiters.nodes, semaphore.registry
    {
      semaphore.Valid() && Sound(View(), Units(View()))
    }

    // Creates a queue with `capacity - |elems|` free slots.
    constructor Init(elems: seq<T>, capacity: usize)
      requires |elems| <= capacity
      ensures Valid() && fresh(Repr())
      ensures View() == Chan(NewSemaphore(capacity - |elems|), elems, capacity, 0, 0, None, [])
    {
      mask := new Mask();
      semaphore := new Semaphore(capacity - |elems|);
      maxCapacity := capacity;
      this.elems, waker, reserved, calls := elems, None, 0, [];
      new;
      EmptySemaphore(semaphore.View());
    }

    method PushAndWake(v: T)
      modifies this`elems, this`calls
      ensures View() == C.PushAndWake(old(View()), v)
    {
      elems := elems + [v];
      if waker.Some? {
        calls := calls + [waker.value];
      }
    }

    method TrySend(v: T) returns (r: Result<(), TrySendError<T>>)
      requires Valid()
      modifies Repr()
      ensures Valid() && Repr() == old(Repr())
      ensures (View(), r) == C.TrySend(old(View()), v)
      ensures r.Ok? <==> !old(semaphore.closed) && old(semaphore.permits) > 0
      ensures r.Err? ==> r.error == if old(semaphore.closed) then SendClosed(v) else SendFull(v)
    {
      TrySendUnits(View(), v, Units(View()));
      hide Sound, Inv, S.TryAcquire, Semaphore.Valid, Semaphore.View;
      var t := semaphore.TryAcquire(true, 1);
      if t.Err? {
        return Err(if t.error.Closed? then SendClosed(v) else SendFull(v));
      }
      PushAndWake(v);
      return Ok(());
    }

    method TryReserve() returns (r: Result<(), TrySendError<()>>)
      requires Valid()
      modifies Repr()
      ensures Valid() && Repr() == old(Repr())
      ensures (View(), r) == C.TryReserve(old(View()))
      ensures r.Ok? <==> !old(semaphore.closed) && old(semaphore.permits) > 0
      ensures r.Err? ==> r.error == if old(semaphore.closed) then SendClosed(()) else SendFull(())
    {
      TryReserveUnits(View(), Units(View()));
      RoomToReserve();
      hide Sound, Inv, S.TryAcquire, Semaphore.Valid, Semaphore.View;
      var t := semaphore.TryAcquire(true, 1);
      if t.Err? {
        return Err(if t.error.Closed? then SendClosed(()) else SendFull(()));
      }
      reserved := reserved + 1;
      return Ok(());
    }

    // The count of reservations cannot overflow: each of them occupies a unit.
    lemma RoomToReserve()
      requires Valid()
      ensures reserved + semaphore.permits <= USIZE_MAX
      ensures S.TryAcquire(View().sem, true, 1).1.Ok? ==> semaphore.permits > 0
    {
    }

    // The parts of the operations below that concern the semaphore alone.
    method GiveUnits(n: usize)
      requires semaphore.Valid()
      modifies Repr()
      ensures semaphore.Valid() && Repr() == old(Repr())
      ensures View() == old(View()).(sem := S.AddPermits(old(View()).sem, n))
    {
      hide Semaphore.Valid, Semaphore.View, S.AddPermits;
      semaphore.AddPermits(n);
    }

    method DropWaiter(waiter: Waiter)
      requires semaphore.Valid() && semaphore.Owns(waiter)
      modifies Repr()
      ensures semaphore.Valid() && Repr() == old(Repr())
      ensures View() == old(View()).(sem := S.DropAcquire(old(View()).sem, waiter.id))
    {
      hide Semaphore.Valid, Semaphore.View, S.DropAcquire, Inv, WellQueued, FutOk;
      semaphore.OwnedIsLive(waiter);
      semaphore.DropAcquire(waiter);
    }

    method CloseSemaphore()
      requires semaphore.Valid()
      modifies Repr()
      ensures semaphore.Valid() && Repr() == old(Repr())
      ensures View() == old(View()).(sem := S.Close(old(View()).sem).0)
    {
      InvHolds();
      hide Semaphore.Valid, Semaphore.View, S.Close;
      var woken := semaphore.Close();
    }

    lemma InvHolds()
      requires semaphore.Valid()
      ensures Inv(View().sem) && WellQueued(View().sem)
    {
    }

    // A reservation ends, either because its element has been sent or because it is given back.
    method Unreserve(consumed: bool)
      requires semaphore.Valid() && reserved > 0
      modifies Repr()
      ensures semaphore.Valid() && Repr() == old(Repr())
      ensures View() == C.Unreserve(old(View()), consumed)
    {
      hide Inv, WellQueued, Semaphore.Valid, Semaphore.View, S.AddPermits;
      reserved := reserved - 1;
      if !consumed {
        GiveUnits(1);
      }
    }

    // Gives a reservation back unused.
    method ReleaseReservation()
      requires Valid() && reserved > 0
      modifies Repr()
      ensures Valid() && Repr() == old(Repr())
      ensures View() == C.Unreserve(old(View()), false) && mask.bits == old(mask.bits)
    {
      UnreserveUnits(View(), Units(View()));
      hide Sound, Inv, Semaphore.Valid, Semaphore.View, C.Unreserve;
      Unreserve(false);
    }

    // Sends through a reservation.
    method SendReserved(v: T)
      requires Valid() && reserved > 0
      modifies Repr()
      ensures Valid() && Repr() == old(Repr())
      ensures View() == C.SendReserved(old(View()), v)
    {
      SendReservedUnits(View(), v, Units(View()));
      hide Sound, Inv, Semaphore.Valid, Semaphore.View;
      PushAndWake(v);
      Unreserve(true);
    }

    // ---------- Waiting for a slot ----------

    // The Acquire future inside a pending send or reserve belongs to this queue's semaphore.
    ghost predicate Awaits(f: SlotFuture)
      reads this, f, semaphore, f.waiter
    {
      f.waiter != null ==> semaphore.Owns(f.waiter) && !f.waiter.done
    }

    // The future to poll: the one there is, or a new one.
    method StartSlot(f: SlotFuture) returns (waiter: Waiter)
      requires semaphore.Valid() && Awaits(f)
      modifies semaphore`registry
      ensures semaphore.Valid() && semaphore.Owns(waiter) && fresh(Repr() - old(Repr()))
      ensures (View(), waiter.id) == C.StartSlot(old(View()), old(f.Id()))
    {
      hide Inv, WellQueued, Linked, FreshLinks, Registered;
      if f.waiter != null {
        return f.waiter;
      }
      waiter := semaphore.BuildAcquire(1);
      assert semaphore.View().futs[waiter.id] == waiter.Value();
    }

    // Polls the future, and drops it as soon as it is ready.
    method PollSlot(waiter: Waiter, cx: Waker) returns (r: Slot)
      requires semaphore.Valid() && semaphore.Owns(waiter)
      modifies Repr()
      ensures semaphore.Valid() && Repr() == old(Repr())
      ensures r.Waits? ==> semaphore.Owns(waiter) && !waiter.done
      ensures (View(), r) == C.PollSlot(old(View()), waiter.id, cx)
    {
      hide Inv, WellQueued, FutOk, Semaphore.Valid, Semaphore.View, S.PollAcquire, S.DropAcquire, Enqueued;
      InvHolds();
      semaphore.OwnedIsLive(waiter);
      PollStaysLive(View().sem, waiter.id, cx);
      ExactFulfilment(View().sem, waiter.id, cx);
      var p := semaphore.PollAcquire(waiter, cx);
      if p.Pending? {
        semaphore.OwnedIsLive(waiter);
        semaphore.QueuedIsPending(waiter);
        return Waits;
      }
      DropWaiter(waiter);
      return if p.result.Ok? then Granted else Refused;
    }

    // One poll of a send or a reserve, up to the point where it has a unit.
    method AwaitSlot(f: SlotFuture, cx: Waker) returns (r: Slot)
      requires semaphore.Valid() && Awaits(f)
      modifies Repr(), f
      ensures semaphore.Valid() && Awaits(f) && fresh(Repr() - old(Repr()))
      ensures (View(), r) == C.AwaitSlot(old(View()), old(f.Id()), cx)
      ensures (f.waiter == null) == !r.Waits?
    {
      hide Inv, WellQueued, Semaphore.Valid, Semaphore.View, C.StartSlot, C.PollSlot;
      var waiter := StartSlot(f);
      r := PollSlot(waiter, cx);
      f.waiter := if r.Waits? then waiter else null;
    }

    // One poll of the future returned by send.
    method PollSend(f: SlotFuture, v: T, cx: Waker) returns (r: Slot)
      requires Valid() && Awaits(f)
      modifies Repr(), f
      ensures Valid() && Awaits(f) && fresh(Repr() - old(Repr()))
      ensures var (c, s) := C.AwaitSlot(old(View()), old(f.Id()), cx);
              r == s && View() == if s.Granted? then C.PushAndWake(c, v) else c
    {
      AwaitedIsLive(f);
      AwaitSlotUnits(View(), f.Id(), cx, Units(View()));
      hide Inv, Semaphore.Valid, Semaphore.View, C.AwaitSlot, SlotFuts, Outstanding;
      r := AwaitSlot(f, cx);
      if r.Granted? {
        PushAndWake(v);
      }
    }

    // One poll of the future returned by reserve.
    method PollReserve(f: SlotFuture, cx: Waker) returns (r: Slot)
      requires Valid() && Awaits(f)
      modifies Repr(), f
      ensures Valid() && Awaits(f) && fresh(Repr() - old(Repr()))
      ensures var (c, s) := C.AwaitSlot(old(View()), old(f.Id()), cx);
              r == s && View() == if s.Granted? then C.Reserved(c) else c
    {
      AwaitedIsLive(f);
      AwaitSlotUnits(View(), f.Id(), cx, Units(View()));
      hide Inv, Semaphore.Valid, Semaphore.View, C.AwaitSlot, SlotFuts, Outstanding;
      r := AwaitSlot(f, cx);
      if r.Granted? {
        reserved := reserved + 1;
      }
    }

    lemma AwaitedIsLive(f: SlotFuture)
      requires Valid() && Awaits(f)
      ensures Inv(View().sem) && (f.Id().Some? ==> Live(View().sem, f.Id().value))
    {
      if f.waiter != null {
        semaphore.OwnedIsLive(f.waiter);
      }
    }

    // Drops a pending send or reserve.
    method CancelSlot(f: SlotFuture)
      requires Valid() && Awaits(f)
      modifies Repr(), f
      ensures Valid() && Repr() == old(Repr()) && f.waiter == null
      ensures View() == match old(f.Id())
                        case None => old(View())
                        case Some(id) => old(View()).(sem := S.DropAcquire(old(View()).sem, id))
    {
      AwaitedIsLive(f);
      if f.waiter == null {
        return;
      }
      CancelUnits(View(), f.waiter.id, Units(View()));
      hide Sound, Inv, Semaphore.Valid, Semaphore.View, S.DropAcquire;
      DropWaiter(f.waiter);
      f.waiter := null;
    }

    // ---------- Receiving ----------

    method TryRecv(counted: bool) returns (r: Result<T, TryRecvError>)
      requires Valid()
      modifies Repr()
      ensures Valid() && Repr() == old(Repr())
      ensures (View(), r) == C.TryRecv(old(View()), counted)
    {
      TryRecvUnits(View(), counted, Units(View()));
      SoundTotal(C.TryRecv(View(), counted).0, Units(View()));
      hide Sound, Units, Inv, Semaphore.Valid, Semaphore.View, S.AddPermits, MaskClosed;
      if elems != [] {
        var v := elems[0];
        elems := elems[1..];
        GiveUnits(1);
        return Ok(v);
      }
      return Err(if reserved == 0 && mask.IsClosed(counted) then Disconnected else Empty);
    }

    method PollRecv(counted: bool, cx: Waker) returns (r: RecvPoll<T>)
      requires Valid()
      modifies Repr()
      ensures Valid() && Repr() == old(Repr())
      ensures (View(), r) == C.PollRecv(old(View()), counted, cx)
    {
      hide Sound, Inv, Semaphore.Valid, Semaphore.View, C.TryRecv;
      var t := TryRecv(counted);
      match t
      case Ok(v) => return Received(v);
      case Err(Disconnected) => return Finished;
      case Err(Empty) =>
        SoundWithWaker(View(), Some(cx), Units(View()));
        waker := Some(cx);
        return RecvPending;
    }

    // ---------- Closing, splitting and counting senders ----------

    method Close(counted: bool)
      requires Valid()
      modifies Repr()
      ensures Valid() && Repr() == old(Repr())
      ensures View() == C.CloseChannel(old(View()), counted)
    {
      CloseUnits(View(), counted, Units(View()));
      SoundTotal(C.CloseChannel(View(), counted), Units(View()));
      hide Sound, Units, Inv, Semaphore.Valid, Semaphore.View, S.Close;
      mask.Close(counted);
      CloseSemaphore();
    }

    method DecreaseSenderCount()
      requires Valid() && mask.bits >= 2
      modifies this`waker, this`calls, mask
      ensures Valid() && View() == C.DropSenderCount(old(View()))
    {
      var last := mask.DecreaseSenderCount();
      if last && waker.Some? {
        calls := calls + [waker.value];
        waker := None;
      }
    }

    lemma SplitView()
      requires Valid() && NoLiveFuture(View().sem) && reserved == 0
      ensures semaphore.permits == View().sem.permits
      ensures C.SetCounted(View()).Some? && maxCapacity + |elems| <= USIZE_MAX ==>
                var d := C.SetCounted(View()).value; Sound(d, Units(d))
    {
      SplitUnits(View());
    }

    // Splits the channel.  Exclusive access means that nothing is pending or reserved and that there
    // are no sender handles.  Fails, where the program panics, if the pool exceeds the capacity.  The
    // units still fit a machine word afterwards unless capacity and queued elements together do not.
    method SetCounted() returns (ok: bool)
      requires Valid() && NoLiveFuture(View().sem) && reserved == 0 && mask.bits < 2
      modifies Repr()
      ensures semaphore.Valid() && Repr() == old(Repr())
      ensures maxCapacity + |elems| <= USIZE_MAX ==> Valid()
      ensures (if ok then Some(View()) else None) == C.SetCounted(old(View()))
      ensures !ok ==> View() == old(View())
    {
      hide Sound, Units, Inv, Semaphore.Valid, S.AddPermits, NoLiveFuture;
      SplitView();
      ok := semaphore.permits <= maxCapacity;
      if ok {
        GiveUnits(maxCapacity - semaphore.permits);
        waker := None;
        mask.Reset(true);
      }
    }
  }

  // A send or reserve that has been started: it owns an Acquire future once it has been polled.
  class SlotFuture {
    var waiter: Waiter?

    constructor ()
      ensures waiter == null
    {
      waiter := null;
    }

    ghost function Id(): Option<nat>
      reads this
    {
      if waiter == null then None else Some(waiter.id)
    }
  }

  lemma SoundWithWaker<T>(c: Chan<T>, waker: Option<Waker>, total: nat)
    requires Sound(c, total)
    ensures Sound(c.(waker := waker), total) && Units(c.(waker := waker)) == Units(c)
  {
  }

  lemma CancelUnits<T>(c: Chan<T>, id: nat, total: nat)
    requires Sound(c, total) && Live(c.sem, id)
    ensures var d := c.(sem := S.DropAcquire(c.sem, id)); Sound(d, total) && Units(d) == total
  {
    DropReturns(c.sem, id);
  }

  lemma SoundTotal<T>(c: Chan<T>, total: nat)
    requires Sound(c, total)
    ensures Units(c) == total
  {
  }
}
