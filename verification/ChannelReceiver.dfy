/** The receiver of a channel: when its waker is called, that it misses nothing as long as it does
    not close the channel itself, and what it still receives after the channel is closed. */
module ChannelReceiver {
  import opened Basics
  import opened SemaphoreModel
  import opened SemaphoreGrants
  import opened MaskModel
  import opened ChannelModel
  import opened ChannelSlots
  import opened ChannelWorld
  import opened ChannelSafety
  import opened ChannelEffects
  import opened ChannelRuns

  // ---------- When the receiver's waker is called ----------

  // A receive poll would be Pending.
  predicate WouldPend<T>(w: World<T>) {
    w.chan.elems == [] && !(w.chan.reserved == 0 && IsClosed(w.chan, w.split))
  }

  // The call delivers an element or drops the last sender handle.
  predicate Rouses<T>(w: World<T>, call: Call<T>)
    requires Good(w) && Enabled(w, call)
  {
    Delivered(w, call) != [] || ReportsLast(w, call)
  }

  ghost predicate Alert<T>(w: World<T>, call: Call<T>, r: World<T>)
    requires Good(w) && Enabled(w, call)
  {
    var woken := w.chan.waker.Some? && Rouses(w, call);
    && r.chan.calls == w.chan.calls + (if woken then [w.chan.waker.value] else [])
    && r.chan.waker == (if call.Split? || ReportsLast(w, call) then None
                        else if call.CallPollRecv? && WouldPend(w) then Some(call.cx)
                        else w.chan.waker)
    && r.parked == (if call.Split? || call.DropReceiver? then false
                    else if call.CallPollRecv? then WouldPend(w)
                    else w.parked && !woken)
  }

  // The same waker is registered, and it has been called if `woken`.
  ghost predicate Called<T>(w: World<T>, r: World<T>, woken: bool) {
    && r.chan.calls == w.chan.calls + (if woken && w.chan.waker.Some? then [w.chan.waker.value] else [])
    && r.chan.waker == w.chan.waker
    && r.parked == (w.parked && !(woken && w.chan.waker.Some?))
  }

  lemma HandleAlert<T>(w: World<T>, call: Call<T>)
    requires Good(w) && Enabled(w, call)
    requires call.Split? || call.Rejoin? || call.CloneSender? || call.CloseReceiver? || call.DropReceiver?
             || call.StartTask?
    ensures Alert(w, call, Perform(w, call))
  {
    hide Good, Inv, AddPermits;
  }

  lemma DropSenderAlert<T>(w: World<T>)
    requires Good(w) && Enabled(w, DropSender)
    ensures Alert(w, DropSender, Perform(w, DropSender))
  {
    hide Good, Inv, AddPermits;
  }

  lemma TryReserveAlert<T>(w: World<T>, call: Call<T>)
    requires Good(w) && Enabled(w, call) && (call.CallTryReserve? || call.CallTryReserveOwned?)
    ensures Alert(w, call, Perform(w, call))
  {
    assert Called(w, AfterTryReserve(w, call.CallTryReserveOwned?), false);
    hide Good, Inv, AfterTryReserve;
  }

  lemma TrySendAlert<T>(w: World<T>, v: T)
    requires Good(w) && Enabled(w, CallTrySend(v))
    ensures Alert(w, CallTrySend(v), Perform(w, CallTrySend(v)))
  {
    TrySendUnits(w.chan, v, w.booked);
    hide Good, Inv, SlotFuts, Units, Outstanding;
  }

  lemma PermitAlert<T>(w: World<T>, call: Call<T>)
    requires Good(w) && Enabled(w, call) && (call.SendBorrowed? || call.SendOwned? || call.DropBorrowed?)
    ensures Alert(w, call, Perform(w, call))
  {
    hide Good, Inv, AddPermits;
  }

  lemma DropOwnedAlert<T>(w: World<T>)
    requires Good(w) && Enabled(w, DropOwned)
    ensures Alert(w, DropOwned, Perform(w, DropOwned))
  {
    HandleInUse(w, DropOwned);
    hide Good, Inv, AddPermits;
  }

  lemma ReceiveAlert<T>(w: World<T>, call: Call<T>)
    requires Good(w) && Enabled(w, call) && (call.CallTryRecv? || call.CallPollRecv?)
    ensures Alert(w, call, Perform(w, call))
  {
    hide Good, Inv, AddPermits, MaskClosed;
  }

  lemma TaskCalled<T>(w: World<T>, i: nat, u: World<T>)
    requires i < |w.tasks| && i < |u.tasks| && u.tasks[i].kind == w.tasks[i].kind && Called(w, u, false)
    ensures Called(w, TaskRefused(u, i), false) && Called(w, TaskGranted(u, i), w.tasks[i].kind.SendTask?)
  {
  }

  lemma SlotCalled<T>(w: World<T>, i: nat, c: Chan<T>)
    requires i < |w.tasks| && c == w.chan.(sem := c.sem)
    ensures Called(w, WithSlot(w, i).(chan := c), false)
  {
  }

  lemma PolledCalled<T>(w: World<T>, i: nat, cx: Waker)
    requires Good(w) && i < |w.tasks| && w.tasks[i].live
    ensures Called(w, TaskPolled(w, i, cx), w.tasks[i].kind.SendTask? && !w.chan.sem.closed && HasUnit(w, i))
  {
    PollKeepsSound(w, i, cx);
    GrantedWhen(w, i, cx);
    PolledIs(w, i, cx);
    SlotFrame(w, i, TaskResult(w, i, cx).0);
    SlotCalled(w, i, TaskResult(w, i, cx).0);
    hide *;
    TaskCalled(w, i, WithSlot(w, i).(chan := TaskResult(w, i, cx).0));
  }

  lemma PollAlert<T>(w: World<T>, i: nat, cx: Waker)
    requires Good(w) && Enabled(w, PollTask(i, cx))
    ensures Alert(w, PollTask(i, cx), TaskPolled(w, i, cx))
  {
    PolledCalled(w, i, cx);
    hide Good, TaskPolled, HasUnit;
  }

  lemma CancelledCalled<T>(w: World<T>, i: nat)
    requires Good(w) && i < |w.tasks| && w.tasks[i].live
    ensures w.tasks[i].kind.ReserveOwnedTask? ==> w.chan.mask >= 2
    ensures var r := TaskCancelled(w, i);
            if w.tasks[i].kind.ReserveOwnedTask? && DecreaseSenders(w.chan.mask).1 then
              r.chan.waker == None && Called(w, r.(chan := r.chan.(waker := w.chan.waker)), true)
            else
              Called(w, r, false)
  {
    CancelKeepsSound(w, i);
    if w.tasks[i].kind.ReserveOwnedTask? {
      HandleInMask(w, i);
    }
    hide Good, Inv, Sound, Tied, Accounted, SlotDropped, Handles;
  }

  lemma CancelAlert<T>(w: World<T>, i: nat)
    requires Good(w) && Enabled(w, CancelTask(i))
    ensures Alert(w, CancelTask(i), TaskCancelled(w, i))
  {
    CancelledCalled(w, i);
    HandleIfDropped(w, i);
    hide Good, TaskCancelled, Enabled, HasUnit;
  }

  lemma HandleIfDropped<T>(w: World<T>, i: nat)
    requires Good(w) && Enabled(w, CancelTask(i))
    ensures DropsHandle(w, CancelTask(i)) == w.tasks[i].kind.ReserveOwnedTask?
  {
  }

  lemma CallAlert<T>(w: World<T>, call: Call<T>)
    requires Good(w) && Enabled(w, call)
    ensures Alert(w, call, Next(w, call))
  {
    NextIs(w, call);
    hide *;
    match call
    case PollTask(i, cx) => EnabledTask(w, call); PollAlert(w, i, cx);
    case CancelTask(i) => EnabledTask(w, call); CancelAlert(w, i);
    case CallTrySend(v) => TrySendAlert(w, v);
    case CallTryReserve => TryReserveAlert(w, call);
    case CallTryReserveOwned => TryReserveAlert(w, call);
    case SendBorrowed(_) => PermitAlert(w, call);
    case DropBorrowed => PermitAlert(w, call);
    case SendOwned(_) => PermitAlert(w, call);
    case DropOwned => DropOwnedAlert(w);
    case CallTryRecv => ReceiveAlert(w, call);
    case CallPollRecv(_) => ReceiveAlert(w, call);
    case DropSender => DropSenderAlert(w);
    case _ => HandleAlert(w, call);
  }

  // ---------- No wake-up is missed ----------

  // The receiver waits: its last poll was Pending, and so would be another one.
  predicate ReceiverWaits<T>(w: World<T>) {
    w.parked && w.chan.waker.Some? && WouldPend(w)
  }

  lemma ClosedMeans<T>(w: World<T>)
    requires Good(w)
    ensures IsClosed(w.chan, w.split) <==> ClosedFlag(w)
  {
    CountedMeaning(Handles(w), ClosedFlag(w));
    UncountedMeaning(ClosedFlag(w));
  }

  // The calls after which the receiver would be told that the channel is finished, but is not woken:
  // closing it when nothing is reserved, or giving back the last reservation of a closed channel,
  // unless that also drops the last sender.
  predicate Misses<T>(w: World<T>, call: Call<T>) {
    match call
    case CloseReceiver => w.chan.reserved == 0
    case DropBorrowed => w.chan.reserved == 1 && ClosedFlag(w)
    case DropOwned => w.chan.reserved == 1 && ClosedFlag(w) && Handles(w) > 1
    case _ => false
  }

  // While the receiver waits, a call lets it continue exactly if it wakes it or misses to do so.
  lemma MissedExactly<T>(w: World<T>, call: Call<T>)
    requires Good(w) && Enabled(w, call) && ReceiverWaits(w) && !call.Split? && !call.DropReceiver?
    ensures var r := Next(w, call);
            && (r.parked <==> r.chan.calls == w.chan.calls)
            && (r.parked || r.chan.calls == w.chan.calls + [w.chan.waker.value])
            && (r.parked ==> r.chan.waker.Some? && (WouldPend(r) <==> !Misses(w, call)))
  {
    var r := Next(w, call);
    CallEffect(w, call);
    CallAlert(w, call);
    HandlesStep(w, call);
    ClosedMeans(w);
    ClosedMeans(r);
    hide Good, Inv, Next, IsClosed, Handles, HasUnit, MaskAfter;
  }

  // What holds on runs in which the receiver does not close the channel: it is never parked on a
  // closed channel, and once its handle is gone no reservation outlives the split.
  predicate Attentive<T>(w: World<T>) {
    && (w.parked ==> ReceiverWaits(w) && !w.chan.sem.closed)
    && (w.chan.sem.closed && MayReceive(w) ==> w.chan.reserved == 0)
  }

  lemma TaskIsBacked<T>(w: World<T>, i: nat)
    requires Good(w) && w.split && i < |w.tasks| && w.tasks[i].live
    ensures Handles(w) >= 1
  {
    if w.tasks[i].kind.ReserveOwnedTask? {
      HandleInMask(w, i);
    } else {
      assert TaskBorrows(w.tasks[i]);
    }
  }

  // Every reservation and every pending send is backed by a live sender handle.
  lemma ReservationsAreBacked<T>(w: World<T>)
    requires Good(w) && w.split && Handles(w) == 0
    ensures w.chan.reserved == 0 && w.senders == 0 && !Borrowing(w)
    ensures forall i :: 0 <= i < |w.tasks| ==> !w.tasks[i].live
  {
    forall i | 0 <= i < |w.tasks|
      ensures !w.tasks[i].live
    {
      if w.tasks[i].live {
        TaskIsBacked(w, i);
      }
    }
  }

  lemma NoneMissed<T>(w: World<T>, call: Call<T>)
    requires Good(w) && Enabled(w, call) && Attentive(w) && w.parked && !call.CloseReceiver?
    ensures !Misses(w, call)
  {
    if ClosedFlag(w) {
      ReservationsAreBacked(w);
    }
    hide Good;
  }

  lemma PollParks<T>(w: World<T>, cx: Waker)
    requires Good(w) && Enabled(w, CallPollRecv(cx)) && Attentive(w)
    ensures var r := Next(w, CallPollRecv(cx)); r.parked ==> ReceiverWaits(r) && !r.chan.sem.closed
  {
    CallEffect(w, CallPollRecv(cx));
    CallAlert(w, CallPollRecv(cx));
    ClosedMeans(w);
    hide Good, Inv, Next;
  }

  lemma AttentiveReserved<T>(w: World<T>, call: Call<T>)
    requires Good(w) && Enabled(w, call) && Attentive(w) && !call.CloseReceiver?
    ensures var r := Next(w, call); r.chan.sem.closed && MayReceive(r) ==> r.chan.reserved == 0
  {
    CallEffect(w, call);
    if call.Rejoin? {
      ReservationsAreBacked(w);
    }
    hide Good, Inv, Next;
  }

  lemma AttentiveStep<T>(w: World<T>, call: Call<T>)
    requires Good(w) && Enabled(w, call) && Attentive(w) && !call.CloseReceiver?
    ensures Attentive(Next(w, call))
  {
    AttentiveReserved(w, call);
    CallAlert(w, call);
    CallEffect(w, call);
    if call.CallPollRecv? {
      PollParks(w, call.cx);
    } else if w.parked && !call.Split? && !call.DropReceiver? {
      NoneMissed(w, call);
      MissedExactly(w, call);
    }
    hide Good, Inv, Next, WouldPend, Enabled;
  }

  lemma {:induction false} AttentiveRun<T>(w: World<T>, calls: seq<Call<T>>)
    requires Good(w) && Possible(w, calls) && Attentive(w) && CloseReceiver !in calls
    ensures Attentive(Run(w, calls))
    decreases |calls|
  {
    if calls != [] {
      AttentiveStep(w, calls[0]);
      hide Good, Next, Attentive;
      AttentiveRun(Next(w, calls[0]), calls[1..]);
    }
  }

  // If the last receive poll was Pending and its waker has not been called since, then a poll now
  // would still be Pending, unless the receiver has closed the channel itself.
  lemma ReceiverMissesNothing<T>(capacity: usize, elems: seq<T>, calls: seq<Call<T>>, cx: Waker)
    requires |elems| <= USIZE_MAX && Possible(Created(capacity, elems), calls) && CloseReceiver !in calls
    ensures var r := Run(Created(capacity, elems), calls);
            r.parked ==> r.chan.waker.Some? && PollRecv(r.chan, r.split, cx).1 == RecvPending
  {
    AttentiveRun(Created(capacity, elems), calls);
  }

  // ---------- After the channel is closed ----------

  // The element that a call sends through a reservation.
  function LateOne<T>(call: Call<T>): seq<T> {
    match call
    case SendBorrowed(v) => [v]
    case SendOwned(v) => [v]
    case _ => []
  }

  function Late<T>(calls: seq<Call<T>>): seq<T> {
    if calls == [] then [] else LateOne(calls[0]) + Late(calls[1..])
  }

  // How many reservations are given back unused.
  function GivenBack<T>(calls: seq<Call<T>>): nat {
    if calls == [] then 0 else (if calls[0].DropBorrowed? || calls[0].DropOwned? then 1 else 0) + GivenBack(calls[1..])
  }

  lemma ClosedStep<T>(w: World<T>, call: Call<T>)
    requires Good(w) && Enabled(w, call) && ClosedFlag(w)
    ensures ClosedFlag(Next(w, call)) && Delivered(w, call) == LateOne(call) && !Reserves(w, call)
  {
    HandlesStep(w, call);
    if !w.chan.sem.closed {
      ReservationsAreBacked(w);
    }
    hide Good, Next, Handles, HasUnit;
  }

  // After a close, whoever closed it, exactly what is queued and what is still sent through the
  // reservations of that moment can be received, in this order.
  lemma {:induction false} DrainingIsExact<T>(w: World<T>, calls: seq<Call<T>>)
    requires Good(w) && Possible(w, calls) && ClosedFlag(w)
    ensures var r := Run(w, calls);
            && ClosedFlag(r)
            && w.received + (w.chan.elems + Late(calls)) == r.received + r.chan.elems
            && w.chan.reserved == |Late(calls)| + GivenBack(calls) + r.chan.reserved
    decreases |calls|
  {
    if calls != [] {
      var n := Next(w, calls[0]);
      ClosedStep(w, calls[0]);
      CallEffect(w, calls[0]);
      Releasing(calls[0]);
      DrainOne(w.received, w.chan.elems, LateOne(calls[0]), Taken(w, calls[0]), n.chan.elems, Late(calls[1..]));
      hide Good, Next, Taken, Delivered, ClosedFlag, LateOne, Reserves, Releases;
      DrainingIsExact(n, calls[1..]);
    }
  }

  lemma DrainOne<T>(received: seq<T>, before: seq<T>, late: seq<T>, taken: seq<T>, after: seq<T>, rest: seq<T>)
    requires before + late == taken + after
    ensures received + (before + (late + rest)) == (received + taken) + (after + rest)
  {
    assert before + (late + rest) == (before + late) + rest;
    assert (taken + after) + rest == taken + (after + rest);
    assert received + (taken + (after + rest)) == (received + taken) + (after + rest);
  }

  lemma Releasing<T>(call: Call<T>)
    ensures (if Releases(call) then 1 else 0)
            == |LateOne(call)| + (if call.DropBorrowed? || call.DropOwned? then 1 else 0)
  {
  }

  // That is never more than the units in circulation, and nothing of it is missing once the
  // receiver is told that the channel is disconnected.
  lemma DrainingIsBounded<T>(w: World<T>, calls: seq<Call<T>>)
    requires Good(w) && Possible(w, calls) && ClosedFlag(w)
    ensures |w.chan.elems| + |Late(calls)| <= w.booked
    ensures var r := Run(w, calls);
            TryRecv(r.chan, r.split).1 == Err(Disconnected) ==> r.received == w.received + (w.chan.elems + Late(calls))
  {
    DrainingIsExact(w, calls);
    var r := Run(w, calls);
    if r.chan.elems == [] {
      assert r.received + r.chan.elems == r.received;
    }
  }

  // If nothing was queued at any split before the close, that is no more than the capacity.
  lemma DrainingWithinCapacity<T>(capacity: usize, elems: seq<T>, before: seq<Call<T>>, after: seq<Call<T>>)
    requires |elems| <= USIZE_MAX && Possible(Created(capacity, elems), before)
             && Tidy(Created(capacity, elems), before)
    requires var w := Run(Created(capacity, elems), before); ClosedFlag(w) && Possible(w, after)
    ensures var w := Run(Created(capacity, elems), before);
            && |w.chan.elems| + |Late(after)| <= w.chan.maxCapacity
            && |Run(w, after).received| <= |w.received| + w.chan.maxCapacity
  {
    var c := Created(capacity, elems);
    BookedOverRuns(c, before, 0);
    TidyLeavesNothing(c, before);
    hide Good, Possible, Created, Run, ClosedFlag, Tidy;
    var w := Run(c, before);
    DrainingIsBounded(w, after);
    DrainingIsExact(w, after);
    assert |w.received + (w.chan.elems + Late(after))| == |Run(w, after).received + Run(w, after).chan.elems|;
  }

  // ---------- Disconnection ----------

  lemma DisconnectedMeans<T>(w: World<T>)
    requires Good(w)
    ensures TryRecv(w.chan, w.split).1 == Err(Disconnected)
            <==> w.chan.elems == [] && w.chan.reserved == 0 && ClosedFlag(w)
  {
    ClosedMeans(w);
    hide Good, Inv, ClosedFlag, MaskClosed, AddPermits;
  }

  lemma DisconnectedStep<T>(w: World<T>, call: Call<T>)
    requires Good(w) && Enabled(w, call) && w.chan.elems == [] && w.chan.reserved == 0 && ClosedFlag(w)
    ensures var r := Next(w, call);
            && r.chan.elems == [] && r.chan.reserved == 0 && ClosedFlag(r)
            && r.received == w.received && r.sent == w.sent
  {
    ClosedStep(w, call);
    CallEffect(w, call);
    Releasing(call);
    hide Good, Next, ClosedFlag, Reserves, Releases;
  }

  // Once the receiver is told that the channel is disconnected, that is what it stays, and nothing
  // is sent or received any more.
  lemma {:induction false} DisconnectedForever<T>(w: World<T>, calls: seq<Call<T>>)
    requires Good(w) && Possible(w, calls) && TryRecv(w.chan, w.split).1 == Err(Disconnected)
    ensures var r := Run(w, calls);
            && TryRecv(r.chan, r.split).1 == Err(Disconnected)
            && r.received == w.received && r.sent == w.sent
    decreases |calls|
  {
    if calls != [] {
      var n := Next(w, calls[0]);
      DisconnectedMeans(w);
      DisconnectedStep(w, calls[0]);
      DisconnectedMeans(n);
      hide Good, Next, TryRecv, ClosedFlag;
      DisconnectedForever(n, calls[1..]);
    }
  }
}
