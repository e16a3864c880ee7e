/** Every call keeps the channel's invariant, on all runs: capacity is conserved, pending tasks and
    Acquire futures correspond, and the mask counts the sender handles. */
module ChannelSafety {
  import opened Basics
  import opened SemaphoreModel
  import opened SemaphoreGrants
  import opened MaskModel
  import opened ChannelModel
  import opened ChannelSlots
  import opened ChannelWorld

  // ---------- Counting handles ----------

  function Mark<T>(t: Task<T>): nat {
    if t.live && t.kind.ReserveOwnedTask? then 1 else 0
  }

  lemma MarksAfterUpdate<T>(tasks: seq<Task<T>>, i: nat, t: Task<T>)
    requires i < |tasks|
    ensures Sum(OwnedMarks(tasks[i := t])) == Sum(OwnedMarks(tasks)) - Mark(tasks[i]) + Mark(t)
  {
    assert OwnedMarks(tasks[i := t]) == OwnedMarks(tasks)[i := Mark(t)];
    SumUpdate(OwnedMarks(tasks), i, Mark(t));
  }

  lemma MarksAfterAppend<T>(tasks: seq<Task<T>>, t: Task<T>)
    ensures Sum(OwnedMarks(tasks + [t])) == Sum(OwnedMarks(tasks)) + Mark(t)
  {
    assert OwnedMarks(tasks + [t]) == OwnedMarks(tasks) + [Mark(t)];
    SumAppend(OwnedMarks(tasks), Mark(t));
  }

  // ---------- Tasks and futures ----------

  lemma SameFuturesTied<T>(w: World<T>, r: World<T>)
    requires Tied(w) && r.owners == w.owners && SameFutures(w.chan.sem, r.chan.sem)
    requires r.tasks == w.tasks
    ensures Tied(r)
  {
  }

  // Task i is pending and its Acquire future, which exists, may or may not have been polled.
  predicate Ready<T>(u: World<T>, i: nat) {
    && i < |u.tasks| && u.tasks[i].live && u.tasks[i].slot.Some? && Tied(u)
    && OneEach(u.chan.sem) && !u.chan.sem.futs[u.tasks[i].slot.value].done
    && (forall id :: 0 <= id < |u.chan.sem.futs| && id != u.tasks[i].slot.value ==> SlotFut(u.chan.sem.futs[id]))
  }

  lemma WithSlotReady<T>(w: World<T>, i: nat)
    requires Inv(w.chan.sem) && SlotFuts(w.chan.sem) && Tied(w) && i < |w.tasks| && w.tasks[i].live
    ensures var u := WithSlot(w, i);
            && Ready(u, i) && Inv(u.chan.sem) && Outstanding(u.chan.sem) == Outstanding(w.chan.sem)
            && u.chan.sem.closed == w.chan.sem.closed
  {
    hide Inv, Outstanding, BuildAcquire, FutOk;
    if w.tasks[i].slot.None? {
      BuildSlot(w.chan.sem);
      NewOwnerTied(w, i, BuildAcquire(w.chan.sem, 1));
    }
  }

  lemma NewOwnerTied<T>(w: World<T>, i: nat, s: Sem)
    requires Tied(w) && i < |w.tasks| && w.tasks[i].live && w.tasks[i].slot.None?
    requires |s.futs| == |w.chan.sem.futs| + 1 && Live(s, |w.chan.sem.futs|)
    requires forall j :: 0 <= j < |w.chan.sem.futs| ==> s.futs[j] == w.chan.sem.futs[j]
    ensures Tied(w.(chan := w.chan.(sem := s),
                    owners := w.owners + [i],
                    tasks := w.tasks[i := w.tasks[i].(slot := Some(|w.chan.sem.futs|))]))
  {
  }

  lemma WaitTied<T>(u: World<T>, i: nat, s: Sem)
    requires Ready(u, i) && SameButPolled(u.chan.sem, s, u.tasks[i].slot.value)
    ensures Tied(u.(chan := u.chan.(sem := s))) && SlotFuts(s)
  {
  }

  lemma FinishTied<T>(u: World<T>, i: nat, s: Sem)
    requires Ready(u, i) && OnlyDropped(u.chan.sem, s, u.tasks[i].slot.value)
    ensures Tied(FinishTask(u.(chan := u.chan.(sem := s)), i)) && SlotFuts(s)
  {
    var r := FinishTask(u.(chan := u.chan.(sem := s)), i);
    var id := u.tasks[i].slot.value;
    forall j | 0 <= j < |r.owners| && s.futs[j].live
      ensures r.owners[j] < |r.tasks| && r.tasks[r.owners[j]].live && r.tasks[r.owners[j]].slot == Some(j)
    {
      assert j != id && u.chan.sem.futs[j].live;
      assert u.tasks[u.owners[j]].slot == Some(j);
    }
  }

  lemma UnpolledTied<T>(w: World<T>, i: nat)
    requires Tied(w) && i < |w.tasks| && w.tasks[i].live && w.tasks[i].slot.None?
    ensures Tied(FinishTask(w, i))
  {
  }

  // ---------- The calls that do not concern tasks ----------

  lemma SplitKeepsGood<T>(w: World<T>)
    requires Good(w) && Enabled(w, Split)
    ensures Good(Perform(w, Split))
  {
    NoTaskNoFuture(w);
    SplitUnits(w.chan);
    var r := Perform(w, Split);
    SameFuturesTied(w, r);
    CountedMeaning(0, w.chan.sem.closed);
  }

  lemma NoTaskNoFuture<T>(w: World<T>)
    requires Tied(w) && !HasPending(w)
    ensures NoLiveFuture(w.chan.sem)
  {
    forall id | 0 <= id < |w.owners|
      ensures !w.chan.sem.futs[id].live
    {
      assert w.owners[id] < |w.tasks| ==> !w.tasks[w.owners[id]].live;
    }
  }

  // The calls by which sender handles come and go.
  lemma HandlesKeepGood<T>(w: World<T>, call: Call<T>)
    requires Good(w) && Enabled(w, call) && (call.CloneSender? || call.DropSender? || call.Rejoin?)
    ensures Good(Perform(w, call))
  {
    hide Inv, Outstanding, FutOk, SlotFuts, AddPermits, Close;
    CountedMeaning(Handles(w), ClosedFlag(w));
    var r := Perform(w, call);
    SameFuturesTied(w, r);
    assert OwnedMarks(r.tasks) == OwnedMarks(w.tasks);
    if call.DropSender? {
      assert Borrowing(r) == Borrowing(w);
    }
  }

  lemma CloseKeepsGood<T>(w: World<T>, call: Call<T>)
    requires Good(w) && Enabled(w, call) && (call.CloseReceiver? || call.DropReceiver?)
    ensures Good(Perform(w, call))
  {
    hide Inv, Outstanding, FutOk, SlotFuts, AddPermits;
    assert Handles(w) == 0 || w.split;
    CloseUnits(w.chan, w.split, w.booked);
    CountedMeaning(Handles(w), ClosedFlag(w));
    UncountedMeaning(ClosedFlag(w));
    var r := Perform(w, call);
    SameFuturesTied(w, r);
    assert Borrowing(r) == Borrowing(w);
  }

  lemma SendingKeepsGood<T>(w: World<T>, call: Call<T>)
    requires Good(w) && Enabled(w, call) && (call.CallTrySend? || call.CallTryReserve? || call.CallTryReserveOwned?)
    ensures Good(Perform(w, call))
  {
    hide Inv, Outstanding, FutOk, SlotFuts, AddPermits, Close;
    if call.CallTrySend? {
      TrySendUnits(w.chan, call.value, w.booked);
    } else {
      TryReserveUnits(w.chan, w.booked);
    }
    var r := Perform(w, call);
    SameFuturesTied(w, r);
    BorrowingByTasks(w, r);
  }

  // Without a change of tasks, only borrowed permits decide whether something borrows.
  lemma BorrowingByTasks<T>(w: World<T>, r: World<T>)
    requires r.tasks == w.tasks
    ensures Borrowing(r) && !Borrowing(w) ==> r.borrowed > 0
    ensures Borrowing(w) && !Borrowing(r) ==> w.borrowed > 0
  {
  }

  lemma PermitsKeepGood<T>(w: World<T>, call: Call<T>)
    requires Good(w) && Enabled(w, call) && (call.SendBorrowed? || call.DropBorrowed? || call.SendOwned?)
    ensures Good(Perform(w, call))
  {
    hide Inv, Outstanding, FutOk, SlotFuts, AddPermits, Close;
    if call.DropBorrowed? {
      UnreserveUnits(w.chan, w.booked);
    } else {
      SendReservedUnits(w.chan, call.value, w.booked);
    }
    var r := Perform(w, call);
    SameFuturesTied(w, r);
    BorrowingByTasks(w, r);
  }

  lemma DropOwnedKeepsGood<T>(w: World<T>)
    requires Good(w) && Enabled(w, DropOwned)
    ensures Good(Perform(w, DropOwned))
  {
    hide Inv, Outstanding, FutOk, SlotFuts, AddPermits, Close;
    UnreserveUnits(w.chan, w.booked);
    CountedMeaning(Handles(w), ClosedFlag(w));
    var r := Perform(w, DropOwned);
    SameFuturesTied(w, r);
    BorrowingByTasks(w, r);
  }

  lemma ReceivingKeepsGood<T>(w: World<T>, call: Call<T>)
    requires Good(w) && Enabled(w, call) && (call.CallTryRecv? || call.CallPollRecv?)
    ensures Good(Perform(w, call))
  {
    hide Inv, Outstanding, FutOk, SlotFuts, AddPermits, Close;
    TryRecvUnits(w.chan, w.split, w.booked);
    var r := Perform(w, call);
    SameFuturesTied(w, r);
    BorrowingByTasks(w, r);
  }

  // ---------- The calls that change tasks ----------

  lemma StartKeepsGood<T>(w: World<T>, kind: Kind<T>)
    requires Good(w) && Enabled(w, StartTask(kind))
    ensures Good(Perform(w, StartTask(kind)))
  {
    hide Inv, Outstanding, FutOk, SlotFuts, AddPermits, Close;
    var t := Task(kind, None, true);
    MarksAfterAppend(w.tasks, t);
    var r := Perform(w, StartTask(kind));
    if Borrowing(r) && !Borrowing(w) {
      assert TaskBorrows(t);
    }
  }

  // A task that stops being pending borrows nothing any more.
  lemma FinishBorrows<T>(w: World<T>, i: nat)
    requires i < |w.tasks| && w.tasks[i].live
    ensures Borrowing(FinishTask(w, i)) ==> Borrowing(w)
    ensures TaskBorrows(w.tasks[i]) ==> Borrowing(w)
  {
    var d := FinishTask(w, i);
    if d.borrowed == 0 && Borrowing(d) {
      var j :| 0 <= j < |d.tasks| && TaskBorrows(d.tasks[j]);
      assert TaskBorrows(w.tasks[j]);
    }
  }

  // Polling task i: its future waits, or is dropped and task i ends.
  lemma PollKeepsSound<T>(w: World<T>, i: nat, cx: Waker)
    requires Good(w) && i < |w.tasks| && w.tasks[i].live
    ensures var (c, r) := TaskResult(w, i, cx);
            var u := WithSlot(w, i).(chan := c);
            && Inv(c.sem) && SlotFuts(c.sem) && c == w.chan.(sem := c.sem) && c.sem.closed == w.chan.sem.closed
            && Outstanding(c.sem) == Outstanding(w.chan.sem) - (if r.Granted? then 1 else 0)
            && (r.Refused? <==> w.chan.sem.closed)
            && Tied(if r.Waits? then u else FinishTask(u, i))
  {
    WithSlotReady(w, i);
    var u := WithSlot(w, i);
    assert Outstanding(w.chan.sem) <= USIZE_MAX;
    hide Inv, Outstanding, SameButPolled, OnlyDropped, Accounted, SlotFuts, PollSlot;
    PollSlotUnits(u.chan, u.tasks[i].slot.value, cx);
    var (c, r) := TaskResult(w, i, cx);
    if r.Waits? {
      WaitTied(u, i, c.sem);
    } else {
      FinishTied(u, i, c.sem);
    }
  }

  // Creating a task's future and changing what the semaphore holds leaves the handles alone.
  lemma SlotAccounts<T>(w: World<T>, i: nat, c: Chan<T>)
    requires Accounted(w) && i < |w.tasks| && c == w.chan.(sem := c.sem) && c.sem.closed == w.chan.sem.closed
    ensures Accounted(WithSlot(w, i).(chan := c))
  {
    var u := WithSlot(w, i).(chan := c);
    MarksAfterUpdate(w.tasks, i, u.tasks[i]);
    if u.borrowed == 0 && Borrowing(u) {
      var j :| 0 <= j < |u.tasks| && TaskBorrows(u.tasks[j]);
      assert TaskBorrows(w.tasks[j]);
    }
  }

  lemma RefuseAccounts<T>(u: World<T>, i: nat)
    requires Accounted(u) && i < |u.tasks| && u.tasks[i].live
    ensures Accounted(TaskRefused(u, i))
  {
    FinishBorrows(u, i);
    MarksAfterUpdate(u.tasks, i, u.tasks[i].(live := false));
    BorrowingByTasks(FinishTask(u, i), TaskRefused(u, i));
  }

  lemma GrantAccounts<T>(u: World<T>, i: nat)
    requires Accounted(u) && i < |u.tasks| && u.tasks[i].live
    ensures Accounted(TaskGranted(u, i))
  {
    FinishBorrows(u, i);
    MarksAfterUpdate(u.tasks, i, u.tasks[i].(live := false));
    BorrowingByTasks(FinishTask(u, i), TaskGranted(u, i));
  }

  // Whatever a task turns its unit into, the unit is back in the channel's books.
  lemma GrantKeepsUnit<T>(u: World<T>, i: nat)
    requires i < |u.tasks| && Inv(u.chan.sem) && SlotFuts(u.chan.sem) && u.booked <= USIZE_MAX
    requires Units(u.chan) == u.booked - 1 && Tied(FinishTask(u, i))
    ensures Sound(TaskGranted(u, i).chan, u.booked) && Tied(TaskGranted(u, i)) && TaskGranted(u, i).booked == u.booked
  {
    hide Inv, Outstanding, SlotFuts;
    SameTied(FinishTask(u, i), TaskGranted(u, i));
  }

  lemma RefuseKeepsUnit<T>(u: World<T>, i: nat)
    requires i < |u.tasks| && Sound(u.chan, u.booked) && Tied(FinishTask(u, i))
    ensures Sound(TaskRefused(u, i).chan, u.booked) && Tied(TaskRefused(u, i)) && TaskRefused(u, i).booked == u.booked
  {
    hide Sound;
    SameTied(FinishTask(u, i), TaskRefused(u, i));
  }

  lemma SameTied<T>(w: World<T>, r: World<T>)
    requires Tied(w) && r.owners == w.owners && r.chan.sem == w.chan.sem && r.tasks == w.tasks
    ensures Tied(r)
  {
  }

  lemma PollKeepsGood<T>(w: World<T>, i: nat, cx: Waker)
    requires Good(w) && i < |w.tasks| && w.tasks[i].live
    ensures Good(TaskPolled(w, i, cx))
  {
    PollKeepsSound(w, i, cx);
    var (c, r) := TaskResult(w, i, cx);
    PollUnits(w, i, c, r);
    SlotAccounts(w, i, c);
    var u := WithSlot(w, i).(chan := c);
    hide *;
    if r.Granted? {
      GrantAccounts(u, i);
      GrantKeepsUnit(u, i);
      GoodParts(TaskGranted(u, i));
      PolledIs(w, i, cx);
    } else if r.Refused? {
      RefuseAccounts(u, i);
      RefuseKeepsUnit(u, i);
      GoodParts(TaskRefused(u, i));
      PolledIs(w, i, cx);
    } else {
      GoodParts(u);
      PolledIs(w, i, cx);
    }
  }

  lemma GoodParts<T>(w: World<T>)
    ensures Good(w) <==> Sound(w.chan, w.booked) && Tied(w) && Accounted(w)
  {
  }

  lemma PolledIs<T>(w: World<T>, i: nat, cx: Waker)
    requires Good(w) && i < |w.tasks| && w.tasks[i].live
    ensures var (c, r) := TaskResult(w, i, cx);
            var u := WithSlot(w, i).(chan := c);
            TaskPolled(w, i, cx) == match r
                                    case Waits => u
                                    case Granted => TaskGranted(u, i)
                                    case Refused => TaskRefused(u, i)
  {
  }

  lemma PollUnits<T>(w: World<T>, i: nat, c: Chan<T>, r: Slot)
    requires Good(w) && i < |w.tasks| && w.tasks[i].live && Inv(c.sem) && SlotFuts(c.sem) && c == w.chan.(sem := c.sem)
    requires Outstanding(c.sem) == Outstanding(w.chan.sem) - (if r.Granted? then 1 else 0)
    ensures var u := WithSlot(w, i).(chan := c);
            && i < |u.tasks| && u.tasks[i].live && u.chan == c && u.booked == w.booked
            && (if r.Granted? then Units(u.chan) == u.booked - 1 && u.booked <= USIZE_MAX else Sound(c, u.booked))
  {
    hide Inv, Outstanding, SlotFuts, BuildAcquire;
  }

  // ---------- Cancelling a task ----------

  lemma CancelKeepsSound<T>(w: World<T>, i: nat)
    requires Good(w) && i < |w.tasks| && w.tasks[i].live
    ensures var u := SlotDropped(w, i);
            Sound(u.chan, w.booked) && u.chan == w.chan.(sem := u.chan.sem) && u.chan.sem.closed == w.chan.sem.closed
            && Tied(FinishTask(u, i))
  {
    if w.tasks[i].slot.None? {
      UnpolledTied(w, i);
    } else {
      WithSlotReady(w, i);
      DropReturns(w.chan.sem, w.tasks[i].slot.value);
      hide Inv, Outstanding;
      FinishTied(w, i, SlotDropped(w, i).chan.sem);
    }
  }

  lemma CancelKeepsGood<T>(w: World<T>, i: nat)
    requires Good(w) && i < |w.tasks| && w.tasks[i].live
    ensures Good(TaskCancelled(w, i))
  {
    CancelKeepsSound(w, i);
    var u := SlotDropped(w, i);
    DroppedAccounts(w, i);
    CancelAccounts(u, i);
    hide Inv, SlotFuts, Accounted, DropAcquire, SlotDropped, Tied, Outstanding;
    SameTied(FinishTask(u, i), TaskCancelled(w, i));
  }

  lemma DroppedAccounts<T>(w: World<T>, i: nat)
    requires Accounted(w) && Tied(w) && Inv(w.chan.sem) && i < |w.tasks| && w.tasks[i].live
    requires SlotDropped(w, i).chan.sem.closed == w.chan.sem.closed
    ensures Accounted(SlotDropped(w, i))
  {
    hide Inv, DropAcquire;
    BorrowingByTasks(w, SlotDropped(w, i));
  }

  lemma CancelAccounts<T>(u: World<T>, i: nat)
    requires Accounted(u) && i < |u.tasks| && u.tasks[i].live
    ensures u.tasks[i].kind.ReserveOwnedTask? ==> u.chan.mask >= 2
    ensures var d := FinishTask(u, i);
            Accounted(if u.tasks[i].kind.ReserveOwnedTask? then WithChan(d, DropSenderCount(d.chan)) else d)
  {
    var d := FinishTask(u, i);
    FinishBorrows(u, i);
    MarksAfterUpdate(u.tasks, i, d.tasks[i]);
    if u.tasks[i].kind.ReserveOwnedTask? {
      HandleInMask(u, i);
      CountedMeaning(Handles(u), ClosedFlag(u));
      BorrowingByTasks(d, WithChan(d, DropSenderCount(d.chan)));
    }
  }

  // ---------- All calls ----------

  lemma EnabledTask<T>(w: World<T>, call: Call<T>)
    requires Good(w) && Enabled(w, call) && (call.PollTask? || call.CancelTask?)
    ensures call.task < |w.tasks| && w.tasks[call.task].live
    ensures Perform(w, call)
         == if call.PollTask? then TaskPolled(w, call.task, call.cx) else TaskCancelled(w, call.task)
  {
    hide Good, TaskPolled, TaskCancelled;
  }

  lemma PerformKeepsGood<T>(w: World<T>, call: Call<T>)
    requires Good(w) && Enabled(w, call)
    ensures Good(Perform(w, call))
  {
    hide Good, Enabled, Perform;
    match call
    case Split => SplitKeepsGood(w);
    case Rejoin => HandlesKeepGood(w, call);
    case CloneSender => HandlesKeepGood(w, call);
    case DropSender => HandlesKeepGood(w, call);
    case CloseReceiver => CloseKeepsGood(w, call);
    case DropReceiver => CloseKeepsGood(w, call);
    case CallTrySend(_) => SendingKeepsGood(w, call);
    case CallTryReserve => SendingKeepsGood(w, call);
    case CallTryReserveOwned => SendingKeepsGood(w, call);
    case StartTask(kind) => StartKeepsGood(w, kind);
    case PollTask(i, cx) => EnabledTask(w, call); PollKeepsGood(w, i, cx);
    case CancelTask(i) => EnabledTask(w, call); CancelKeepsGood(w, i);
    case SendBorrowed(_) => PermitsKeepGood(w, call);
    case DropBorrowed => PermitsKeepGood(w, call);
    case SendOwned(_) => PermitsKeepGood(w, call);
    case DropOwned => DropOwnedKeepsGood(w);
    case CallTryRecv => ReceivingKeepsGood(w, call);
    case CallPollRecv(_) => ReceivingKeepsGood(w, call);
  }
}
