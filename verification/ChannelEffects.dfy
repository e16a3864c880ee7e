/** What each call does to the elements, the reservations, the handles and the flags of a channel. */
module ChannelEffects {
  import opened Basics
  import opened SemaphoreModel
  import opened SemaphoreGrants
  import opened MaskModel
  import opened ChannelModel
  import opened ChannelSlots
  import opened ChannelWorld
  import opened ChannelSafety

  function Next<T>(w: World<T>, call: Call<T>): (r: World<T>)
    requires Good(w) && Enabled(w, call)
    ensures Good(r)
  {
    PerformKeepsGood(w, call);
    Perform(w, call)
  }

  // The future of task i can take a unit when it is polled.
  predicate HasUnit<T>(w: World<T>, i: nat)
    requires Tied(w) && i < |w.tasks| && w.tasks[i].live
  {
    if w.tasks[i].slot.Some? then w.chan.sem.futs[w.tasks[i].slot.value].state.Woken?
    else w.chan.sem.permits > 0
  }

  lemma GrantedWhen<T>(w: World<T>, i: nat, cx: Waker)
    requires Good(w) && i < |w.tasks| && w.tasks[i].live
    ensures TaskResult(w, i, cx).1 == if w.chan.sem.closed then Refused else if HasUnit(w, i) then Granted else Waits
  {
    WithSlotIsLive(w, i);
    var u := WithSlot(w, i);
    var id := u.tasks[i].slot.value;
    assert FutOk(u.chan.sem.futs[id], u.chan.sem.closed);
    hide DropAcquire;
  }

  // The element that a call puts into the queue: a send succeeds exactly when the channel is open
  // and a unit is there for it, and sending through a permit always does.
  function Delivered<T>(w: World<T>, call: Call<T>): seq<T>
    requires Good(w) && Enabled(w, call)
  {
    match call
    case CallTrySend(v) => if !w.chan.sem.closed && w.chan.sem.permits > 0 then [v] else []
    case PollTask(i, _) =>
      if w.tasks[i].kind.SendTask? && !w.chan.sem.closed && HasUnit(w, i) then [w.tasks[i].kind.value] else []
    case SendBorrowed(v) => [v]
    case SendOwned(v) => [v]
    case _ => []
  }

  // The element that a call takes out of the queue.
  function Taken<T>(w: World<T>, call: Call<T>): seq<T> {
    if (call.CallTryRecv? || call.CallPollRecv?) && w.chan.elems != [] then w.chan.elems[..1] else []
  }

  predicate DropsHandle<T>(w: World<T>, call: Call<T>)
    requires Enabled(w, call)
  {
    call.DropSender? || call.DropOwned? || (call.CancelTask? && w.tasks[call.task].kind.ReserveOwnedTask?)
  }

  lemma HandleInUse<T>(w: World<T>, call: Call<T>)
    requires Good(w) && Enabled(w, call) && DropsHandle(w, call)
    ensures Handles(w) >= 1 && w.chan.mask >= 2
  {
    if call.CancelTask? {
      HandleInMask(w, call.task);
    }
  }

  function MaskAfter<T>(w: World<T>, call: Call<T>): nat
    requires Good(w) && Enabled(w, call)
  {
    if DropsHandle(w, call) then HandleInUse(w, call); DecreaseSenders(w.chan.mask).0
    else if call.CloneSender? then w.chan.mask + 2
    else if call.Split? then ResetMask(w.chan.mask, true)
    else if call.CloseReceiver? || call.DropReceiver? then CloseMask(w.chan.mask, w.split)
    else w.chan.mask
  }

  // A reservation is made exactly when the channel is open and a unit is there for it.
  predicate Reserves<T>(w: World<T>, call: Call<T>)
    requires Good(w) && Enabled(w, call)
  {
    match call
    case CallTryReserve => !w.chan.sem.closed && w.chan.sem.permits > 0
    case CallTryReserveOwned => !w.chan.sem.closed && w.chan.sem.permits > 0
    case PollTask(i, _) => !w.tasks[i].kind.SendTask? && !w.chan.sem.closed && HasUnit(w, i)
    case _ => false
  }

  predicate Releases<T>(call: Call<T>) {
    call.SendBorrowed? || call.SendOwned? || call.DropBorrowed? || call.DropOwned?
  }

  ghost predicate Effect<T>(w: World<T>, call: Call<T>, r: World<T>)
    requires Good(w) && Enabled(w, call)
  {
    && r.chan.maxCapacity == w.chan.maxCapacity
    && r.booked == (if call.Split? then w.chan.maxCapacity + |w.chan.elems| else w.booked)
    && r.sent == w.sent + Delivered(w, call)
    && r.received == w.received + Taken(w, call)
    && w.chan.elems + Delivered(w, call) == Taken(w, call) + r.chan.elems
    && r.chan.mask == MaskAfter(w, call)
    && r.chan.sem.closed == (w.chan.sem.closed || call.CloseReceiver? || call.DropReceiver?)
    && r.chan.reserved == w.chan.reserved + (if Reserves(w, call) then 1 else 0) - (if Releases(call) then 1 else 0)
    && r.split == (if call.Split? then true else if call.Rejoin? then false else w.split)
    && r.receiver == (if call.Split? then true else if call.DropReceiver? then false else w.receiver)
  }

  lemma SplitEffect<T>(w: World<T>)
    requires Good(w) && Enabled(w, Split)
    ensures Effect(w, Split, Perform(w, Split))
  {
    NoTaskNoFuture(w);
    SplitUnits(w.chan);
    hide Good, Inv, AddPermits;
  }

  lemma HandleEffect<T>(w: World<T>, call: Call<T>)
    requires Good(w) && Enabled(w, call)
    requires call.CloneSender? || call.DropSender? || call.Rejoin? || call.CloseReceiver? || call.DropReceiver?
             || call.StartTask?
    ensures Effect(w, call, Perform(w, call))
  {
    hide Good, Inv, AddPermits;
  }

  lemma TrySendEffect<T>(w: World<T>, v: T)
    requires Good(w) && Enabled(w, CallTrySend(v))
    ensures Effect(w, CallTrySend(v), Perform(w, CallTrySend(v)))
  {
    TrySendUnits(w.chan, v, w.booked);
    hide Good, Inv, SlotFuts, Units, Outstanding;
  }

  lemma TryReserveEffect<T>(w: World<T>, call: Call<T>)
    requires Good(w) && Enabled(w, call) && (call.CallTryReserve? || call.CallTryReserveOwned?)
    ensures Effect(w, call, Perform(w, call))
  {
    ReservedFrame(w, call.CallTryReserveOwned?);
    hide Good, AfterTryReserve;
  }

  // The parts of r that calls on tasks and permits leave alone.
  ghost predicate SameFrame<T>(w: World<T>, r: World<T>) {
    && r.chan.maxCapacity == w.chan.maxCapacity && r.booked == w.booked && r.received == w.received
    && r.chan.sem.closed == w.chan.sem.closed && r.split == w.split && r.receiver == w.receiver
  }

  lemma ReservedFrame<T>(w: World<T>, ownedPermit: bool)
    requires Good(w) && (ownedPermit ==> w.senders > 0)
    ensures var r := AfterTryReserve(w, ownedPermit);
            && SameFrame(w, r) && r.sent == w.sent && r.chan.elems == w.chan.elems && r.chan.mask == w.chan.mask
            && r.chan.reserved == w.chan.reserved + (if !w.chan.sem.closed && w.chan.sem.permits > 0 then 1 else 0)
  {
    TryReserveUnits(w.chan, w.booked);
    hide Good, Inv, SlotFuts, Units, Outstanding;
  }

  lemma SendPermitEffect<T>(w: World<T>, call: Call<T>)
    requires Good(w) && Enabled(w, call) && (call.SendBorrowed? || call.SendOwned?)
    ensures Effect(w, call, Perform(w, call))
  {
    hide Good, Inv, Sound;
  }

  lemma DropBorrowedEffect<T>(w: World<T>)
    requires Good(w) && Enabled(w, DropBorrowed)
    ensures Effect(w, DropBorrowed, Perform(w, DropBorrowed))
  {
    UnreserveUnits(w.chan, w.booked);
    hide Good, Inv, Sound, SameFutures, AddPermits;
  }

  lemma DropOwnedEffect<T>(w: World<T>)
    requires Good(w) && Enabled(w, DropOwned)
    ensures Effect(w, DropOwned, Perform(w, DropOwned))
  {
    DropOwnedFrame(w);
    hide Good, AfterDropOwned;
  }

  lemma DropOwnedFrame<T>(w: World<T>)
    requires Good(w) && w.owned > 0
    ensures var r := AfterDropOwned(w);
            && SameFrame(w, r) && r.sent == w.sent && r.chan.elems == w.chan.elems
            && r.chan.reserved == w.chan.reserved - 1
            && w.chan.mask >= 2 && r.chan.mask == DecreaseSenders(w.chan.mask).0
  {
    UnreserveUnits(w.chan, w.booked);
    hide Good, Inv, Sound, SameFutures, AddPermits;
  }

  ghost predicate ReceiveFrame<T>(w: World<T>, r: World<T>) {
    var t := if w.chan.elems != [] then w.chan.elems[..1] else [];
    && r.chan.maxCapacity == w.chan.maxCapacity && r.booked == w.booked && r.sent == w.sent
    && r.chan.sem.closed == w.chan.sem.closed && r.split == w.split && r.receiver == w.receiver
    && r.chan.mask == w.chan.mask && r.chan.reserved == w.chan.reserved
    && r.received == w.received + t && w.chan.elems == t + r.chan.elems
  }

  lemma ReceivedFrame<T>(w: World<T>, cx: Waker)
    requires Good(w)
    ensures ReceiveFrame(w, AfterTryRecv(w)) && ReceiveFrame(w, AfterPollRecv(w, cx))
  {
    TryRecvUnits(w.chan, w.split, w.booked);
    hide Good, Inv, Sound, SameFutures, AddPermits, MaskClosed;
  }

  lemma TryRecvEffect<T>(w: World<T>)
    requires Good(w) && Enabled(w, CallTryRecv)
    ensures Effect(w, CallTryRecv, Perform(w, CallTryRecv))
  {
    ReceivedFrame(w, 0);
    hide Good, AfterTryRecv, AfterPollRecv;
  }

  lemma PollRecvEffect<T>(w: World<T>, cx: Waker)
    requires Good(w) && Enabled(w, CallPollRecv(cx))
    ensures Effect(w, CallPollRecv(cx), Perform(w, CallPollRecv(cx)))
  {
    ReceivedFrame(w, cx);
    hide Good, AfterTryRecv, AfterPollRecv;
  }

  ghost predicate PollFrame<T>(w: World<T>, i: nat, granted: bool, r: World<T>)
    requires i < |w.tasks|
  {
    var kind := w.tasks[i].kind;
    && SameFrame(w, r) && r.chan.mask == w.chan.mask
    && r.sent == w.sent + (if granted && kind.SendTask? then [kind.value] else [])
    && r.chan.elems == w.chan.elems + (if granted && kind.SendTask? then [kind.value] else [])
    && r.chan.reserved == w.chan.reserved + (if granted && !kind.SendTask? then 1 else 0)
  }

  lemma TaskFrame<T>(w: World<T>, i: nat, u: World<T>)
    requires i < |w.tasks| && i < |u.tasks| && u.tasks[i].kind == w.tasks[i].kind
    requires SameFrame(w, u) && u.chan == w.chan.(sem := u.chan.sem) && u.sent == w.sent
    ensures PollFrame(w, i, false, u) && PollFrame(w, i, false, TaskRefused(u, i))
            && PollFrame(w, i, true, TaskGranted(u, i))
  {
  }

  lemma PolledFrame<T>(w: World<T>, i: nat, cx: Waker)
    requires Good(w) && i < |w.tasks| && w.tasks[i].live
    ensures PollFrame(w, i, !w.chan.sem.closed && HasUnit(w, i), TaskPolled(w, i, cx))
  {
    PollKeepsSound(w, i, cx);
    GrantedWhen(w, i, cx);
    PolledIs(w, i, cx);
    SlotFrame(w, i, TaskResult(w, i, cx).0);
    hide *;
    TaskFrame(w, i, WithSlot(w, i).(chan := TaskResult(w, i, cx).0));
  }

  lemma SlotFrame<T>(w: World<T>, i: nat, c: Chan<T>)
    requires i < |w.tasks| && c == w.chan.(sem := c.sem) && c.sem.closed == w.chan.sem.closed
    ensures var u := WithSlot(w, i).(chan := c);
            && i < |u.tasks| && u.tasks[i].kind == w.tasks[i].kind
            && SameFrame(w, u) && u.chan == w.chan.(sem := u.chan.sem) && u.sent == w.sent
  {
  }

  lemma PollEffect<T>(w: World<T>, i: nat, cx: Waker)
    requires Good(w) && Enabled(w, PollTask(i, cx))
    ensures Effect(w, PollTask(i, cx), TaskPolled(w, i, cx))
  {
    assert i < |w.tasks| && w.tasks[i].live;
    hide Good, Enabled, TaskPolled, HasUnit, DecreaseSenders, ResetMask, CloseMask;
    PolledFrame(w, i, cx);
  }

  lemma CancelledFrame<T>(w: World<T>, i: nat)
    requires Good(w) && i < |w.tasks| && w.tasks[i].live
    ensures var r := TaskCancelled(w, i);
            && SameFrame(w, r) && r.sent == w.sent && r.chan.elems == w.chan.elems && r.chan.reserved == w.chan.reserved
            && (w.tasks[i].kind.ReserveOwnedTask? ==> w.chan.mask >= 2)
            && r.chan.mask == if w.tasks[i].kind.ReserveOwnedTask? then DecreaseSenders(w.chan.mask).0 else w.chan.mask
  {
    CancelKeepsSound(w, i);
    if w.tasks[i].kind.ReserveOwnedTask? {
      HandleInMask(w, i);
    }
    hide Good, Inv, SlotDropped, Outstanding, SlotFuts, Tied;
  }

  lemma CancelEffect<T>(w: World<T>, i: nat)
    requires Good(w) && Enabled(w, CancelTask(i))
    ensures Effect(w, CancelTask(i), TaskCancelled(w, i))
  {
    CancelledFrame(w, i);
    hide Good, TaskCancelled;
  }

  lemma CallEffect<T>(w: World<T>, call: Call<T>)
    requires Good(w) && Enabled(w, call)
    ensures Effect(w, call, Next(w, call))
  {
    NextIs(w, call);
    hide *;
    match call
    case Split => SplitEffect(w);
    case PollTask(i, cx) => EnabledTask(w, call); PollEffect(w, i, cx);
    case CancelTask(i) => EnabledTask(w, call); CancelEffect(w, i);
    case CallTrySend(v) => TrySendEffect(w, v);
    case CallTryReserve => TryReserveEffect(w, call);
    case CallTryReserveOwned => TryReserveEffect(w, call);
    case SendBorrowed(_) => SendPermitEffect(w, call);
    case DropBorrowed => DropBorrowedEffect(w);
    case SendOwned(_) => SendPermitEffect(w, call);
    case DropOwned => DropOwnedEffect(w);
    case CallTryRecv => TryRecvEffect(w);
    case CallPollRecv(cx) => PollRecvEffect(w, cx);
    case _ => HandleEffect(w, call);
  }

  lemma NextIs<T>(w: World<T>, call: Call<T>)
    requires Good(w) && Enabled(w, call)
    ensures Next(w, call) == Perform(w, call)
    ensures forall c: Call<T> :: Releases(c) <==> c.SendBorrowed? || c.SendOwned? || c.DropBorrowed? || c.DropOwned?
  {
  }
}
