/** How long a sender waits for a slot: every unit that is given up, and every sender ahead that is
    cancelled, brings it one place forward, and nothing else moves it. */
module ChannelWaiting {
  import opened Basics
  import opened SemaphoreModel
  import opened SemaphoreGrants
  import opened SemaphoreSafety
  import Waits = SemaphoreWaiting
  import opened ChannelModel
  import opened ChannelSlots
  import opened ChannelWorld
  import opened ChannelSafety
  import opened ChannelEffects
  import opened ChannelRuns
  import opened ChannelSenders
  import opened ChannelTrace

  // ---------- What each call does to the queue of waiting senders ----------

  // The future that cancelling task i takes out of the queue.
  predicate LeavesEarly<T>(w: World<T>, call: Call<T>, id: nat)
    requires Enabled(w, call)
  {
    call.CancelTask? && w.tasks[call.task].slot == Some(id) && id in w.chan.sem.queue
  }

  ghost predicate QueueMoves<T>(w: World<T>, call: Call<T>, r: World<T>)
    requires Good(w) && Enabled(w, call)
  {
    var (q, q') := (w.chan.sem.queue, r.chan.sem.queue);
    if GivesUp(w, call) then q != [] && q' == q[1..]
    else if call.CancelTask? && w.tasks[call.task].slot.Some? then q' == Without(q, w.tasks[call.task].slot.value)
    else q <= q'
  }

  lemma PollSlotQueue<T>(c: Chan<T>, id: nat, cx: Waker)
    requires Inv(c.sem) && Live(c.sem, id) && !c.sem.closed && !c.sem.futs[id].done
    ensures c.sem.queue <= PollSlot(c, id, cx).0.sem.queue
  {
    var (s, p) := PollAcquire(c.sem, id, cx);
    PollStaysLive(c.sem, id, cx);
    ExactFulfilment(c.sem, id, cx);
    if p.Ready? {
      hide Inv;
      DetachKeepsInv(s, id);
      AddNothing(Detach(s, id));
    }
  }

  lemma TaskQueue<T>(w: World<T>, i: nat, cx: Waker)
    requires Good(w) && i < |w.tasks| && w.tasks[i].live && !w.chan.sem.closed
    ensures w.chan.sem.queue <= TaskResult(w, i, cx).0.sem.queue
  {
    WithSlotReady(w, i);
    WithSlotIsLive(w, i);
    var u := WithSlot(w, i);
    assert u.chan.sem.queue == w.chan.sem.queue;
    hide Inv, PollSlot;
    PollSlotQueue(u.chan, u.tasks[i].slot.value, cx);
  }

  lemma PolledQueue<T>(w: World<T>, i: nat, cx: Waker)
    requires Good(w) && i < |w.tasks| && w.tasks[i].live && !w.chan.sem.closed
    ensures w.chan.sem.queue <= TaskPolled(w, i, cx).chan.sem.queue
  {
    WithSlotIsLive(w, i);
    TaskQueue(w, i, cx);
    PolledIs(w, i, cx);
    hide *;
    TaskSem(WithSlot(w, i).(chan := TaskResult(w, i, cx).0), i);
  }

  // A sender that is cancelled while it waits holds nothing.
  lemma CancelledQueue<T>(w: World<T>, i: nat)
    requires Good(w) && i < |w.tasks| && w.tasks[i].live && !w.chan.sem.closed && !HoldsUnit(w, i)
    ensures var q := w.chan.sem.queue;
            TaskCancelled(w, i).chan.sem.queue == match w.tasks[i].slot case None => q case Some(id) => Without(q, id)
  {
    if w.tasks[i].slot.Some? {
      var (s, id) := (w.chan.sem, w.tasks[i].slot.value);
      assert FutOk(s.futs[id], s.closed) && SlotFut(s.futs[id]);
      assert Enqueued(s, id);
      DetachKeepsInv(s, id);
      AddNothing(Detach(s, id));
    }
    hide Inv, Sound, AddPermits, Accounted;
  }

  lemma QueueMeansPending<T>(w: World<T>)
    requires Good(w) && w.chan.sem.queue != []
    ensures HasPending(w) && !w.chan.sem.closed
  {
    var s := w.chan.sem;
    assert Enqueued(s, s.queue[0]) && FutOk(s.futs[s.queue[0]], s.closed);
    assert w.tasks[w.owners[s.queue[0]]].live;
  }

  lemma SteadyQueue<T>(w: World<T>, call: Call<T>)
    requires Good(w) && Enabled(w, call) && !GivesUp(w, call) && !call.CloseReceiver? && !call.DropReceiver?
    requires !call.PollTask? && !call.CancelTask? && !call.Split?
    ensures Perform(w, call).chan.sem.queue == w.chan.sem.queue
  {
    hide Good, Inv;
  }

  lemma CallMovesQueue<T>(w: World<T>, call: Call<T>)
    requires Good(w) && Enabled(w, call) && w.chan.sem.queue != [] && !call.CloseReceiver? && !call.DropReceiver?
    ensures QueueMoves(w, call, Next(w, call))
  {
    NextIs(w, call);
    QueueMeansPending(w);
    if GivesUp(w, call) {
      UnitGoesToHead(w, call);
      hide Good, GivesUp, Perform;
    } else if call.PollTask? {
      EnabledTask(w, call);
      PolledQueue(w, call.task, call.cx);
      hide Good, Perform, TaskPolled;
    } else if call.CancelTask? {
      EnabledTask(w, call);
      CancelledQueue(w, call.task);
      hide Good, Perform, TaskCancelled, Without;
    } else {
      SteadyQueue(w, call);
      hide Good, Perform;
    }
  }

  // ---------- Places in the queue ----------

  lemma PlaceIs(q: seq<nat>, id: nat, k: nat)
    requires Distinct(q) && k < |q| && q[k] == id
    ensures id in q && Waits.Place(q, id) == k
  {
  }

  lemma PlaceInTail(q: seq<nat>, id: nat)
    requires Distinct(q) && id in q
    ensures id in q[1..] <==> Waits.Place(q, id) > 0
    ensures id in q[1..] ==> Waits.Place(q[1..], id) == Waits.Place(q, id) - 1
  {
    var k := Waits.Place(q, id);
    if k > 0 {
      PlaceIs(q[1..], id, k - 1);
    } else {
      RemoveAtFacts(q, 0);
      assert q[1..] == RemoveAt(q, 0);
    }
  }

  lemma PlaceWithout(q: seq<nat>, x: nat, id: nat)
    requires Distinct(q) && id in q && x != id
    ensures id in Without(q, x)
    ensures Waits.Place(Without(q, x), id)
         == Waits.Place(q, id) - if x in q && Waits.Place(q, x) < Waits.Place(q, id) then 1 else 0
  {
    hide Distinct, RemoveAt, Without;
    if x in q {
      var (j, k) := (Waits.Place(q, x), Waits.Place(q, id));
      WithoutIsRemoveAt(q, j);
      RemoveAtFacts(q, j);
      PlaceIs(RemoveAt(q, j), id, if k < j then k else k - 1);
    } else {
      WithoutAbsent(q, x);
    }
  }

  lemma {:induction false} WithoutAbsent<T>(q: seq<T>, x: T)
    requires x !in q
    ensures Without(q, x) == q
  {
    if q != [] {
      WithoutAbsent(q[1..], x);
    }
  }

  // A sender ahead of future id is cancelled while it waits.
  predicate Passes<T>(w: World<T>, call: Call<T>, id: nat)
    requires Enabled(w, call)
  {
    && call.CancelTask? && id in w.chan.sem.queue && w.tasks[call.task].slot.Some?
    && var j := w.tasks[call.task].slot.value;
       j in w.chan.sem.queue && Waits.Place(w.chan.sem.queue, j) < Waits.Place(w.chan.sem.queue, id)
  }

  function Forward<T>(w: World<T>, call: Call<T>, id: nat): nat
    requires Good(w) && Enabled(w, call)
  {
    (if GivesUp(w, call) then 1 else 0) + (if Passes(w, call, id) then 1 else 0)
  }

  // The channel is not closed, and the sender with future id is not cancelled while it waits.
  predicate Patient<T>(w: World<T>, call: Call<T>, id: nat)
    requires Enabled(w, call)
  {
    !call.CloseReceiver? && !call.DropReceiver? && !LeavesEarly(w, call, id)
  }

  lemma HolderIsNotQueued<T>(w: World<T>, i: nat)
    requires Good(w) && HoldsUnit(w, i)
    ensures w.tasks[i].slot.value !in w.chan.sem.queue
  {
  }

  // Each call moves a waiting sender forward by exactly that; one that is moved from the front of the
  // queue is woken.
  lemma PlaceStep<T>(w: World<T>, call: Call<T>, id: nat)
    requires Good(w) && Enabled(w, call) && id in w.chan.sem.queue && Patient(w, call, id)
    ensures var (q, r, k) := (w.chan.sem.queue, Next(w, call).chan.sem, Waits.Place(w.chan.sem.queue, id));
            && (id in r.queue <==> Forward(w, call, id) <= k)
            && (id in r.queue ==> Waits.Place(r.queue, id) == k - Forward(w, call, id))
            && (id !in r.queue ==> id < |r.futs| && r.futs[id].state.Woken?)
  {
    var q, r := w.chan.sem.queue, Next(w, call).chan.sem;
    assert Distinct(q) && Distinct(r.queue);
    CallMovesQueue(w, call);
    if GivesUp(w, call) {
      if call.CancelTask? {
        HolderIsNotQueued(w, call.task);
      }
      UnitGoesToHead(w, call);
      PlaceInTail(q, id);
      hide Good, Inv, Next, Enabled, GivesUp;
    } else if call.CancelTask? && w.tasks[call.task].slot.Some? {
      PlaceWithout(q, w.tasks[call.task].slot.value, id);
      hide Good, Inv, Next, Enabled, GivesUp, Without;
    } else {
      PlaceIs(r.queue, id, Waits.Place(q, id));
      hide Good, Inv, Next, Enabled, GivesUp;
    }
  }

  // ---------- Whole runs ----------

  predicate AllPatient<T>(w: World<T>, calls: seq<Call<T>>, id: nat)
    requires Good(w) && Possible(w, calls)
    decreases |calls|
  {
    calls == [] || (Patient(w, calls[0], id) && AllPatient(Next(w, calls[0]), calls[1..], id))
  }

  function ForwardIn<T>(w: World<T>, calls: seq<Call<T>>, id: nat): nat
    requires Good(w) && Possible(w, calls)
    decreases |calls|
  {
    if calls == [] then 0 else Forward(w, calls[0], id) + ForwardIn(Next(w, calls[0]), calls[1..], id)
  }

  // Bounded waiting: on every run, a sender at place k of the queue waits until the units that are
  // given up and the senders ahead that are cancelled are together more than k, and no longer.
  lemma {:induction false} SendersWaitExactly<T>(w: World<T>, calls: seq<Call<T>>, id: nat)
    requires Good(w) && Possible(w, calls) && id in w.chan.sem.queue && AllPatient(w, calls, id)
    ensures var (q, k) := (Run(w, calls).chan.sem.queue, Waits.Place(w.chan.sem.queue, id));
            && (id in q <==> ForwardIn(w, calls, id) <= k)
            && (id in q ==> Waits.Place(q, id) == k - ForwardIn(w, calls, id))
    decreases |calls|
  {
    if calls != [] {
      var n := Next(w, calls[0]);
      PlaceStep(w, calls[0], id);
      hide Good, Next, Forward, Patient;
      if id in n.chan.sem.queue {
        SendersWaitExactly(n, calls[1..], id);
      } else {
        ServedForGood(n, calls[1..], id);
      }
    }
  }

  // A sender that has been served does not wait again.
  lemma ServedForGood<T>(w: World<T>, calls: seq<Call<T>>, id: nat)
    requires Good(w) && Possible(w, calls) && id !in w.chan.sem.queue
    requires id < |w.chan.sem.futs| && w.chan.sem.futs[id].state.Woken?
    ensures id !in Run(w, calls).chan.sem.queue
  {
    ChannelRunIsSemaphoreRun(w, calls);
    Waits.NotQueuedAgain(Alone(w.chan.sem), Trace(w, calls), id);
  }
}
