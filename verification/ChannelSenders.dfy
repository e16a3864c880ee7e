/** Senders that wait for capacity: why they have to, and who lets them continue. */
module ChannelSenders {
  import opened Basics
  import opened SemaphoreModel
  import opened SemaphoreGrants
  import opened ChannelModel
  import opened ChannelSlots
  import opened ChannelWorld
  import opened ChannelSafety
  import opened ChannelEffects
  import opened ChannelRuns

  // Task i has been given a unit but has not been polled since.
  predicate HoldsUnit<T>(w: World<T>, i: nat)
    requires Tied(w)
  {
    && i < |w.tasks| && w.tasks[i].live && w.tasks[i].slot.Some?
    && var f := w.chan.sem.futs[w.tasks[i].slot.value]; f.state.Woken? && f.permits == 1
  }

  // ---------- The cause of waiting ----------

  lemma HolderExists<T>(w: World<T>) returns (i: nat)
    requires Good(w) && w.chan.sem.queue != [] && Sum(Holdings(w.chan.sem.futs)) > 0
    ensures HoldsUnit(w, i)
  {
    var s := w.chan.sem;
    var id := SumPositive(Holdings(s.futs));
    assert FutOk(s.futs[id], s.closed);
    assert Enqueued(s, s.queue[0]) && FutOk(s.futs[s.queue[0]], s.closed);
    i := w.owners[id];
  }

  // If a sender waits, there is an element to receive, an outstanding permit, or another sender that
  // has been given a unit but has not been polled yet.
  ghost predicate Caused<T>(w: World<T>)
    requires Good(w)
  {
    w.chan.sem.queue != [] ==> w.chan.elems != [] || w.borrowed + w.owned > 0 || exists i :: HoldsUnit(w, i)
  }

  lemma WaitingHasCause<T>(w: World<T>)
    requires Good(w) && w.booked >= 1
    ensures Caused(w)
  {
    if w.chan.sem.queue != [] && w.chan.elems == [] && w.chan.reserved == 0 {
      var i := HolderExists(w);
    }
  }

  lemma CausedOnRuns<T>(capacity: usize, elems: seq<T>, calls: seq<Call<T>>)
    requires |elems| <= USIZE_MAX && (capacity >= 1 || elems != []) && Possible(Created(capacity, elems), calls)
    ensures Caused(Run(Created(capacity, elems), calls))
  {
    var w := Created(capacity, elems);
    BookedOverRuns(w, calls, 0);
    hide Run, Possible, Created, Caused;
    WaitingHasCause(Run(w, calls));
  }

  // ---------- No capacity at all ----------

  predicate NoCapacity<T>(w: World<T>) {
    w.booked == 0 && w.chan.maxCapacity == 0
  }

  lemma NothingExists<T>(w: World<T>)
    requires Good(w) && NoCapacity(w)
    ensures w.chan.sem.permits == 0 && w.chan.elems == [] && w.chan.reserved == 0 && w.borrowed + w.owned == 0
    ensures forall id :: 0 <= id < |w.chan.sem.futs| ==> w.chan.sem.futs[id].permits == 0
    ensures forall i: nat :: !HoldsUnit(w, i)
  {
    var futs := w.chan.sem.futs;
    forall id | 0 <= id < |futs|
      ensures futs[id].permits == 0
    {
      SumAtLeast(Holdings(futs), id);
    }
  }

  lemma NobodyHasUnit<T>(w: World<T>, i: nat)
    requires Good(w) && NoCapacity(w) && !w.chan.sem.closed && i < |w.tasks| && w.tasks[i].live
    ensures !HasUnit(w, i)
  {
    NothingExists(w);
    if w.tasks[i].slot.Some? {
      var id := w.tasks[i].slot.value;
      assert Live(w.chan.sem, id) && FutOk(w.chan.sem.futs[id], false) && SlotFut(w.chan.sem.futs[id]);
    }
  }

  lemma NoCapacityStep<T>(w: World<T>, call: Call<T>)
    requires Good(w) && Enabled(w, call) && NoCapacity(w)
    ensures NoCapacity(Next(w, call)) && Delivered(w, call) == [] && !Reserves(w, call)
    ensures Next(w, call).sent == w.sent && Next(w, call).received == w.received
  {
    NothingExists(w);
    CallEffect(w, call);
    if call.PollTask? && !w.chan.sem.closed {
      NobodyHasUnit(w, call.task);
    }
    hide Good, Next, HasUnit, MaskAfter;
  }

  // No call of the run sends an element or makes a reservation.
  predicate ServesNobody<T>(w: World<T>, calls: seq<Call<T>>)
    requires Good(w) && Possible(w, calls)
    decreases |calls|
  {
    calls == []
    || (Delivered(w, calls[0]) == [] && !Reserves(w, calls[0]) && ServesNobody(Next(w, calls[0]), calls[1..]))
  }

  // Without capacity, no send or reserve ever succeeds.
  lemma {:induction false} NoCapacityRun<T>(w: World<T>, calls: seq<Call<T>>)
    requires Good(w) && Possible(w, calls) && NoCapacity(w)
    ensures ServesNobody(w, calls) && NoCapacity(Run(w, calls)) && Run(w, calls).sent == w.sent
    decreases |calls|
  {
    if calls != [] {
      NoCapacityStep(w, calls[0]);
      hide Good, Next, NoCapacity, Reserves, Delivered;
      NoCapacityRun(Next(w, calls[0]), calls[1..]);
    }
  }

  // from_iter accepts a capacity of zero; the channel it creates without elements never lets anybody
  // send or reserve, on no run.
  lemma ZeroCapacityServesNobody<T>(w: World<T>, calls: seq<Call<T>>)
    requires w == Created<T>(0, []) && Possible(w, calls)
    ensures ServesNobody(w, calls) && Run(w, calls).sent == []
  {
    CreatedEmpty(w);
    hide *;
    NoCapacityRun(w, calls);
  }

  lemma CreatedEmpty<T>(w: World<T>)
    requires w == Created<T>(0, [])
    ensures NoCapacity(w) && w.sent == []
  {
    hide Good;
  }

  // One task has been started and not been polled.
  lemma FirstReserve<T>(w: World<T>)
    requires w == Created<T>(0, [])
    ensures Enabled(w, StartTask(ReserveTask))
    ensures Next(w, StartTask(ReserveTask)) == w.(tasks := [Task(ReserveTask, None, true)])
    ensures w.tasks == [] && w.chan.sem == NewSemaphore(0)
  {
    hide Good, Inv;
  }

  lemma ReserveWaits<T>(w: World<T>, cx: Waker)
    requires Good(w) && w.tasks == [Task(ReserveTask, None, true)] && w.chan.sem == NewSemaphore(0)
    ensures Enabled(w, PollTask(0, cx)) && Next(w, PollTask(0, cx)).chan.sem.queue == [0]
  {
    GrantedWhen(w, 0, cx);
    PolledIs(w, 0, cx);
    NextIs(w, PollTask(0, cx));
    EnabledTask(w, PollTask(0, cx));
    FirstPollQueues(w, cx);
    hide Good, Inv, Next, Perform, TaskResult, TaskPolled;
  }

  lemma FirstPollQueues<T>(w: World<T>, cx: Waker)
    requires Good(w) && w.tasks == [Task(ReserveTask, None, true)] && w.chan.sem == NewSemaphore(0)
    ensures TaskResult(w, 0, cx).0.sem.queue == [0]
  {
    WithSlotIsLive(w, 0);
    hide Good, Inv, DropAcquire;
  }

  // A reserve on this channel waits without a cause.
  lemma ZeroCapacityWaitsInVain<T>(w: World<T>, cx: Waker)
    requires w == Created<T>(0, [])
    ensures var calls := [StartTask(ReserveTask), PollTask(0, cx)];
            Possible(w, calls) && !Caused(Run(w, calls))
  {
    hide *;
    CreatedEmpty(w);
    var c: seq<Call<T>> := [StartTask(ReserveTask), PollTask(0, cx)];
    FirstReserve(w);
    var s := Next(w, c[0]);
    ReserveWaits(s, cx);
    var r := Next(s, c[1]);
    NoCapacityStep(w, c[0]);
    NoCapacityStep(s, c[1]);
    InVain(r);
    NoCalls(r);
    RunCons(s, c[1], []);
    RunCons(w, c[0], [c[1]] + []);
    assert [c[0]] + ([c[1]] + []) == c;
  }

  lemma InVain<T>(w: World<T>)
    requires Good(w) && NoCapacity(w) && w.chan.sem.queue == [0]
    ensures !Caused(w)
  {
    NothingExists(w);
  }

  // On every run, senders only wait with a cause, if and only if the channel is created with a
  // capacity or with elements.
  lemma BlockedSendersHaveCause<T>(capacity: usize, elems: seq<T>)
    requires |elems| <= USIZE_MAX
    ensures (forall calls :: Possible(Created(capacity, elems), calls) ==> Caused(Run(Created(capacity, elems), calls)))
            <==> capacity >= 1 || elems != []
  {
    hide Possible, Run, Caused, Created, Good;
    if capacity >= 1 || elems != [] {
      forall calls | Possible(Created(capacity, elems), calls)
        ensures Caused(Run(Created(capacity, elems), calls))
      {
        CausedOnRuns(capacity, elems, calls);
      }
    } else {
      ZeroCapacityWaitsInVain(Created(capacity, elems), 0);
    }
  }

  // ---------- Releasing it ----------

  // The first waiting future, and nobody else, is given the unit, woken and taken off the queue.
  ghost predicate WakesHead(s: Sem, r: Sem)
    requires WellQueued(s) && s.queue != []
  {
    var id := s.queue[0];
    && CanReceive(s, id) && id < |r.futs|
    && r.queue == s.queue[1..] && r.permits == s.permits && r.closed == s.closed
    && r.futs[id] == s.futs[id].(permits := s.futs[id].wants, state := Woken)
    && r.wakes == s.wakes + [Wake(id, s.futs[id].waker.value)]
  }

  lemma OneUnitWakesHead(s: Sem)
    requires Inv(s) && OneEach(s) && s.queue != []
    ensures AddPermits(s, 1) == Grant(s) && WakesHead(s, AddPermits(s, 1))
  {
    assert CanReceive(s, s.queue[0]) && s.futs[s.queue[0]].wants == 1;
    AddNothing(Grant(s));
  }

  // The call gives up a unit: an element is received, a permit is dropped, or a sender that has been
  // given a unit is cancelled.
  predicate GivesUp<T>(w: World<T>, call: Call<T>)
    requires Good(w) && Enabled(w, call)
  {
    match call
    case CallTryRecv => w.chan.elems != []
    case CallPollRecv(_) => w.chan.elems != []
    case DropBorrowed => true
    case DropOwned => true
    case CancelTask(i) => HoldsUnit(w, i)
    case _ => false
  }

  lemma HolderDropWakesHead(s: Sem, id: nat)
    requires Inv(s) && OneEach(s) && s.queue != [] && Live(s, id) && s.futs[id].state.Woken? && s.futs[id].permits == 1
    ensures WakesHead(s, DropAcquire(s, id))
  {
    var d := Detach(s, id);
    assert Enqueued(s, s.queue[0]);
    DetachKeepsInv(s, id);
    assert d.queue == s.queue && d.futs[s.queue[0]] == s.futs[s.queue[0]];
    hide Inv;
    OneUnitWakesHead(d);
  }

  lemma CancelWakesHead<T>(w: World<T>, i: nat)
    requires Good(w) && w.chan.sem.queue != [] && HoldsUnit(w, i)
    ensures WakesHead(w.chan.sem, TaskCancelled(w, i).chan.sem)
  {
    HolderDropWakesHead(w.chan.sem, w.tasks[i].slot.value);
    hide Inv, Sound, AddPermits, DropAcquire;
  }

  // Whatever unit is given up, the sender that has waited longest gets it.
  lemma UnitGoesToHead<T>(w: World<T>, call: Call<T>)
    requires Good(w) && Enabled(w, call) && w.chan.sem.queue != [] && GivesUp(w, call)
    ensures WakesHead(w.chan.sem, Next(w, call).chan.sem)
  {
    if call.CancelTask? {
      EnabledTask(w, call);
      CancelWakesHead(w, call.task);
      hide Good, WakesHead, TaskCancelled;
    } else {
      OneUnitWakesHead(w.chan.sem);
      hide Good, WakesHead, Grant, AddPermits, Inv;
    }
  }

  // A sender that has been given a unit takes it when it is polled, unless the channel is closed.
  lemma HolderTakesUnit<T>(w: World<T>, i: nat, cx: Waker)
    requires Good(w) && HoldsUnit(w, i) && !w.chan.sem.closed
    ensures TaskResult(w, i, cx).1 == Granted
  {
    GrantedWhen(w, i, cx);
  }
}
