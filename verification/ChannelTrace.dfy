/** A channel uses its semaphore as any other program would: every run of a channel is, for the
    semaphore, a run of semaphore operations.  What holds on all runs of a semaphore therefore holds
    for the waiting senders of a channel. */
module ChannelTrace {
  import opened Basics
  import opened SemaphoreModel
  import Runs = SemaphoreRuns
  import History = SemaphoreHistory
  import opened ChannelModel
  import opened ChannelWorld
  import opened ChannelSafety
  import opened ChannelEffects
  import opened ChannelRuns

  type Op = Runs.Op

  function Alone(s: Sem): Runs.System {
    Runs.System(s, [])
  }

  // `ops` can be performed on s, and leads to r; no permit of the semaphore remains outside of it.
  ghost predicate Leads(s: Sem, ops: seq<Op>, r: Sem) {
    Inv(s) && Runs.Possible(Alone(s), ops) && Runs.Run(Alone(s), ops) == Alone(r)
  }

  // ---------- Runs of the semaphore ----------

  lemma LeadsTwice(s: Sem, a: seq<Op>, m: Sem, b: seq<Op>, r: Sem)
    requires Leads(s, a, m) && Leads(m, b, r)
    ensures Leads(s, a + b, r)
  {
    hide Inv, Runs.Possible, Runs.Run;
    Runs.RunAppend(Alone(s), a, b);
  }

  lemma OneOp(t: Runs.System, op: Op)
    requires Inv(t.sem) && Runs.Enabled(t, op)
    ensures Runs.Possible(t, [op]) && Runs.Run(t, [op]) == Runs.Step(t, op)
  {
    hide Inv, Runs.Step, Runs.Enabled;
    assert Runs.Possible(Runs.Step(t, op), []) && Runs.Run(Runs.Step(t, op), []) == Runs.Step(t, op);
  }

  lemma OneStep(s: Sem, op: Op, r: Sem)
    requires Inv(s) && Runs.Enabled(Alone(s), op) && Runs.Step(Alone(s), op) == Alone(r)
    ensures Leads(s, [op], r)
  {
    OneOp(Alone(s), op);
  }

  lemma TwoSteps(s: Sem, a: Op, m: Runs.System, b: Op, r: Sem)
    requires Inv(s) && Runs.Enabled(Alone(s), a) && Runs.Step(Alone(s), a) == m
    requires Inv(m.sem) && Runs.Enabled(m, b) && Runs.Step(m, b) == Alone(r)
    ensures Leads(s, [a, b], r)
  {
    OneOp(Alone(s), a);
    OneOp(m, b);
    Runs.RunAppend(Alone(s), [a], [b]);
    assert [a] + [b] == [a, b];
  }

  lemma NoStep(s: Sem)
    requires Inv(s)
    ensures Leads(s, [], s)
  {
  }

  // ---------- What a call does with the semaphore ----------

  // Taking a unit at once: the permit is forgotten, since the unit is now accounted for elsewhere.
  function TakeOps(s: Sem): seq<Op> {
    if s.closed || s.permits == 0 then [Runs.TryAcquireMany(1)] else [Runs.TryAcquireMany(1), Runs.ForgetPermit(0)]
  }

  lemma TakeLeads(s: Sem)
    requires Inv(s)
    ensures Leads(s, TakeOps(s), TryAcquire(s, true, 1).0)
  {
    var op: Op := Runs.TryAcquireMany(1);
    Safety.TryAcquireKeepsInv(s, true, 1);
    var m := Runs.Step(Alone(s), op);
    hide Inv;
    if s.closed || s.permits == 0 {
      OneStep(s, op, TryAcquire(s, true, 1).0);
    } else {
      assert RemoveAt([1 as usize], 0) == [];
      TwoSteps(s, op, m, Runs.ForgetPermit(0), TryAcquire(s, true, 1).0);
    }
  }

  lemma AddLeads(s: Sem, n: usize)
    requires Inv(s)
    ensures Leads(s, [Runs.Add(n)], AddPermits(s, n))
  {
    OneStep(s, Runs.Add(n), AddPermits(s, n));
  }

  lemma DropLeads(s: Sem, id: nat)
    requires Inv(s) && Live(s, id)
    ensures Leads(s, [Runs.DropFuture(id)], DropAcquire(s, id))
  {
    hide Inv;
    OneStep(s, Runs.DropFuture(id), DropAcquire(s, id));
  }

  lemma CloseLeads(s: Sem)
    requires Inv(s)
    ensures Leads(s, [Runs.CloseAll], Close(s).0)
  {
    hide Inv;
    OneStep(s, Runs.CloseAll, Close(s).0);
  }

  lemma BuildLeads(s: Sem)
    requires Inv(s)
    ensures Leads(s, [Runs.Build(1)], BuildAcquire(s, 1))
  {
    hide Inv;
    OneStep(s, Runs.Build(1), BuildAcquire(s, 1));
  }

  // Polling the future of a send: as soon as it is ready it is dropped.
  function PollOps(s: Sem, id: nat, cx: Waker): seq<Op>
    requires Inv(s) && Live(s, id)
  {
    var p := PollAcquire(s, id, cx).1;
    if p.Pending? then [Runs.PollFuture(id, cx)]
    else if p.result.Ok? then [Runs.PollFuture(id, cx), Runs.ForgetPermit(0)] + [Runs.DropFuture(id)]
    else [Runs.PollFuture(id, cx)] + [Runs.DropFuture(id)]
  }

  lemma PollStepIs(s: Sem, id: nat, cx: Waker)
    requires Inv(s) && Live(s, id)
    ensures Runs.Enabled(Alone(s), Runs.PollFuture(id, cx))
    ensures var (r, p) := PollAcquire(s, id, cx);
            var m := Runs.Step(Alone(s), Runs.PollFuture(id, cx));
            m.sem == r && (if p.Ready? && p.result.Ok? then |m.issued| == 1 else m.issued == [])
  {
    hide Inv, PollAcquire;
  }

  lemma PollLeads<T>(c: Chan<T>, id: nat, cx: Waker)
    requires Inv(c.sem) && Live(c.sem, id)
    ensures Leads(c.sem, PollOps(c.sem, id, cx), PollSlot(c, id, cx).0.sem)
  {
    var s := c.sem;
    var op: Op := Runs.PollFuture(id, cx);
    PollStepIs(s, id, cx);
    PollStaysLive(s, id, cx);
    var (r, p) := PollAcquire(s, id, cx);
    var m := Runs.Step(Alone(s), op);
    hide Inv, PollAcquire, Leads, DropAcquire;
    if p.Pending? {
      OneStep(s, op, r);
    } else {
      DropLeads(r, id);
      if p.result.Ok? {
        TwoSteps(s, op, m, Runs.ForgetPermit(0), r);
        LeadsTwice(s, [op, Runs.ForgetPermit(0)], r, [Runs.DropFuture(id)], DropAcquire(r, id));
      } else {
        OneStep(s, op, r);
        LeadsTwice(s, [op], r, [Runs.DropFuture(id)], DropAcquire(r, id));
      }
    }
  }

  function TaskOps<T>(w: World<T>, i: nat, cx: Waker): seq<Op>
    requires Good(w) && i < |w.tasks| && w.tasks[i].live
  {
    WithSlotIsLive(w, i);
    var u := WithSlot(w, i);
    (if w.tasks[i].slot.Some? then [] else [Runs.Build(1)]) + PollOps(u.chan.sem, u.tasks[i].slot.value, cx)
  }

  lemma TaskLeads<T>(w: World<T>, i: nat, cx: Waker)
    requires Good(w) && i < |w.tasks| && w.tasks[i].live
    ensures Leads(w.chan.sem, TaskOps(w, i, cx), TaskResult(w, i, cx).0.sem)
  {
    WithSlotIsLive(w, i);
    var u := WithSlot(w, i);
    var id := u.tasks[i].slot.value;
    PollLeads(u.chan, id, cx);
    var build: seq<Op> := if w.tasks[i].slot.Some? then [] else [Runs.Build(1)];
    if w.tasks[i].slot.Some? {
      NoStep(w.chan.sem);
    } else {
      BuildLeads(w.chan.sem);
    }
    hide Inv, Leads, PollOps, PollSlot, BuildAcquire;
    LeadsTwice(w.chan.sem, build, u.chan.sem, PollOps(u.chan.sem, id, cx), TaskResult(w, i, cx).0.sem);
  }

  // The semaphore operations that a call makes.
  function Ops<T>(w: World<T>, call: Call<T>): seq<Op>
    requires Good(w) && Enabled(w, call)
  {
    match call
    case Split => [Runs.Add(w.chan.maxCapacity - w.chan.sem.permits)]
    case CloseReceiver => [Runs.CloseAll]
    case DropReceiver => [Runs.CloseAll]
    case CallTrySend(_) => TakeOps(w.chan.sem)
    case CallTryReserve => TakeOps(w.chan.sem)
    case CallTryReserveOwned => TakeOps(w.chan.sem)
    case PollTask(i, cx) => TaskOps(w, i, cx)
    case CancelTask(i) => if w.tasks[i].slot.Some? then [Runs.DropFuture(w.tasks[i].slot.value)] else []
    case DropBorrowed => [Runs.Add(1)]
    case DropOwned => [Runs.Add(1)]
    case CallTryRecv => if w.chan.elems != [] then [Runs.Add(1)] else []
    case CallPollRecv(_) => if w.chan.elems != [] then [Runs.Add(1)] else []
    case _ => []
  }

  lemma TakingLeads<T>(w: World<T>, call: Call<T>)
    requires Good(w) && Enabled(w, call) && (call.CallTrySend? || call.CallTryReserve? || call.CallTryReserveOwned?)
    ensures Leads(w.chan.sem, TakeOps(w.chan.sem), Perform(w, call).chan.sem)
  {
    TakeLeads(w.chan.sem);
    hide Good, Inv, Leads, TakeOps;
  }

  lemma GivingLeads<T>(w: World<T>, call: Call<T>)
    requires Good(w) && Enabled(w, call)
    requires call.DropBorrowed? || call.DropOwned? || ((call.CallTryRecv? || call.CallPollRecv?) && w.chan.elems != [])
    ensures Leads(w.chan.sem, [Runs.Add(1)], Perform(w, call).chan.sem)
  {
    AddLeads(w.chan.sem, 1);
    hide Good, Inv, Leads, AddPermits;
  }

  lemma SplitLeads<T>(w: World<T>)
    requires Good(w) && Enabled(w, Split)
    ensures Leads(w.chan.sem, Ops(w, Split), Perform(w, Split).chan.sem)
  {
    AddLeads(w.chan.sem, w.chan.maxCapacity - w.chan.sem.permits);
    hide Good, Inv, Leads, AddPermits;
  }

  lemma ClosingLeads<T>(w: World<T>, call: Call<T>)
    requires Good(w) && Enabled(w, call) && (call.CloseReceiver? || call.DropReceiver?)
    ensures Leads(w.chan.sem, [Runs.CloseAll], Perform(w, call).chan.sem)
  {
    CloseLeads(w.chan.sem);
    hide Good, Inv, Leads, Close;
  }

  lemma TaskSem<T>(u: World<T>, i: nat)
    requires i < |u.tasks|
    ensures TaskGranted(u, i).chan.sem == u.chan.sem && TaskRefused(u, i).chan.sem == u.chan.sem
  {
  }

  lemma PollCallLeads<T>(w: World<T>, i: nat, cx: Waker)
    requires Good(w) && i < |w.tasks| && w.tasks[i].live
    ensures Leads(w.chan.sem, TaskOps(w, i, cx), TaskPolled(w, i, cx).chan.sem)
  {
    TaskLeads(w, i, cx);
    PolledIs(w, i, cx);
    WithSlotIsLive(w, i);
    hide *;
    TaskSem(WithSlot(w, i).(chan := TaskResult(w, i, cx).0), i);
  }

  lemma CancelLeads<T>(w: World<T>, i: nat)
    requires Good(w) && i < |w.tasks| && w.tasks[i].live
    ensures Leads(w.chan.sem,
                  if w.tasks[i].slot.Some? then [Runs.DropFuture(w.tasks[i].slot.value)] else [],
                  TaskCancelled(w, i).chan.sem)
  {
    if w.tasks[i].slot.Some? {
      DropLeads(w.chan.sem, w.tasks[i].slot.value);
    } else {
      NoStep(w.chan.sem);
    }
    hide Good, Inv, Leads, DropAcquire;
  }

  lemma QuietLeads<T>(w: World<T>, call: Call<T>)
    requires Good(w) && Enabled(w, call)
    requires call.Rejoin? || call.CloneSender? || call.DropSender? || call.StartTask? || call.SendBorrowed?
             || call.SendOwned?
             || ((call.CallTryRecv? || call.CallPollRecv?) && w.chan.elems == [])
    ensures Leads(w.chan.sem, [], Perform(w, call).chan.sem)
  {
    NoStep(w.chan.sem);
    hide Good, Inv, Leads;
  }

  lemma OpsLead<T>(w: World<T>, call: Call<T>)
    requires Good(w) && Enabled(w, call)
    ensures Leads(w.chan.sem, Ops(w, call), Next(w, call).chan.sem)
  {
    NextIs(w, call);
    hide Good, Next, Perform, Leads, TakeOps, TaskOps;
    if call.PollTask? {
      EnabledTask(w, call);
      PollCallLeads(w, call.task, call.cx);
    } else if call.CancelTask? {
      EnabledTask(w, call);
      CancelLeads(w, call.task);
    } else if call.Split? {
      SplitLeads(w);
    } else if call.CloseReceiver? || call.DropReceiver? {
      ClosingLeads(w, call);
    } else if call.CallTrySend? || call.CallTryReserve? || call.CallTryReserveOwned? {
      TakingLeads(w, call);
    } else if call.DropBorrowed? || call.DropOwned?
              || ((call.CallTryRecv? || call.CallPollRecv?) && w.chan.elems != []) {
      GivingLeads(w, call);
    } else {
      QuietLeads(w, call);
    }
  }

  // ---------- Whole runs ----------

  function Trace<T>(w: World<T>, calls: seq<Call<T>>): seq<Op>
    requires Good(w) && Possible(w, calls)
    decreases |calls|
  {
    if calls == [] then [] else Ops(w, calls[0]) + Trace(Next(w, calls[0]), calls[1..])
  }

  // Every run of a channel is a run of its semaphore.
  lemma {:induction false} ChannelRunIsSemaphoreRun<T>(w: World<T>, calls: seq<Call<T>>)
    requires Good(w) && Possible(w, calls)
    ensures Leads(w.chan.sem, Trace(w, calls), Run(w, calls).chan.sem)
    decreases |calls|
  {
    if calls == [] {
      NoStep(w.chan.sem);
    } else {
      var n := Next(w, calls[0]);
      OpsLead(w, calls[0]);
      hide Good, Next, Leads, Ops;
      ChannelRunIsSemaphoreRun(n, calls[1..]);
      LeadsTwice(w.chan.sem, Ops(w, calls[0]), n.chan.sem, Trace(n, calls[1..]), Run(w, calls).chan.sem);
    }
  }

  // Senders are given units in the order in which they started to wait, on every run of a channel;
  // each of them is still waiting, or has been granted, dismissed by a close or cancelled; and the
  // calls of wakers are one call of the first waker of each granted and then each dismissed sender,
  // all of them in the order in which the senders started to wait.
  lemma SendersFirstComeFirstServed<T>(capacity: usize, elems: seq<T>, calls: seq<Call<T>>)
    requires |elems| <= USIZE_MAX && Possible(Created(capacity, elems), calls)
    ensures var w := Created(capacity, elems);
            var s := Run(w, calls).chan.sem;
            Runs.Possible(Alone(w.chan.sem), Trace(w, calls))
            && var h := History.RecordRun(History.NoHistory(), Alone(w.chan.sem), Trace(w, calls));
            && Subsequence(h.granted, h.enqueued)
            && (forall i, j :: 0 <= i < j < |h.enqueued| ==> h.enqueued[i].fut != h.enqueued[j].fut)
            && multiset(h.enqueued)
               == multiset(Wakeups(s)) + multiset(h.granted) + multiset(h.dismissed) + multiset(h.cancelled)
            && s.wakes == h.granted + h.dismissed && Subsequence(s.wakes, h.enqueued)
  {
    var w := Created(capacity, elems);
    ChannelRunIsSemaphoreRun(w, calls);
    History.FirstComeFirstServed(w.chan.sem.permits, Trace(w, calls));
  }
}
