/** Who is woken, in which order and how often, over arbitrary runs; and what closing means. */
module SemaphoreHistory {
  import opened Basics
  import opened SemaphoreModel
  import opened SemaphoreSafety
  import opened SemaphoreGrants
  import opened SemaphoreRuns

  // A future and the waker it registered when it was enqueued, in the order of the events:
  // enqueued, woken by a grant, woken by close, and cancelled while queued.
  datatype History = History(enqueued: seq<Wake>, granted: seq<Wake>, dismissed: seq<Wake>, cancelled: seq<Wake>)

  function NoHistory(): History {
    History([], [], [], [])
  }

  function NewWakes(t: System, op: Op): seq<Wake>
    requires Inv(t.sem) && Enabled(t, op)
  {
    var (old', new') := (t.sem.wakes, Step(t, op).sem.wakes);
    if |old'| <= |new'| then new'[|old'|..] else []
  }

  predicate Joins(t: System, op: Op)
    requires Inv(t.sem) && Enabled(t, op)
  {
    op.PollFuture? && op.id !in t.sem.queue && op.id in Step(t, op).sem.queue
  }

  predicate Cancels(t: System, op: Op)
    requires Inv(t.sem) && Enabled(t, op)
  {
    op.DropFuture? && op.id in t.sem.queue
  }

  function TicketOf(s: Sem, id: nat): Wake
    requires CanReceive(s, id)
  {
    Wake(id, s.futs[id].waker.value)
  }

  // The history after one more operation.
  function Record(h: History, t: System, op: Op): History
    requires Inv(t.sem) && Enabled(t, op)
  {
    History(
      if Joins(t, op) then h.enqueued + [Wake(op.id, op.cx)] else h.enqueued,
      if op.CloseAll? then h.granted else h.granted + NewWakes(t, op),
      if op.CloseAll? then h.dismissed + NewWakes(t, op) else h.dismissed,
      if Cancels(t, op) then QueuedCanReceive(t.sem, op.id); h.cancelled + [TicketOf(t.sem, op.id)] else h.cancelled)
  }

  lemma QueuedCanReceive(s: Sem, id: nat)
    requires WellQueued(s) && id in s.queue
    ensures CanReceive(s, id)
  {
  }

  function RecordRun(h: History, t: System, ops: seq<Op>): History
    requires Inv(t.sem) && Possible(t, ops)
    decreases |ops|
  {
    if ops == [] then h else RecordRun(Record(h, t, ops[0]), Step(t, ops[0]), ops[1..])
  }

  // Wakeups(s) lists the tickets of the queued futures, front first.
  // Grants so far followed by the queue are in enqueueing order, and every enqueued future is
  // queued, granted, dismissed or cancelled, and only one of these.
  ghost predicate InLine(h: History, line: seq<Wake>) {
    && Subsequence(h.granted + line, h.enqueued)
    && multiset(h.enqueued) == multiset(line) + multiset(h.granted) + multiset(h.dismissed) + multiset(h.cancelled)
  }

  // Nobody enters the queue twice.
  predicate EnqueuedOnce(h: History, s: Sem) {
    && (forall i :: 0 <= i < |h.enqueued| ==> WasPolled(s, h.enqueued[i].fut))
    && (forall i, j :: 0 <= i < j < |h.enqueued| ==> h.enqueued[i].fut != h.enqueued[j].fut)
  }

  // The semaphore's waker calls are the grants and, once it is closed, the dismissals; all of them
  // are made in enqueueing order.
  ghost predicate CallsLogged(h: History, s: Sem) {
    s.wakes == h.granted + h.dismissed && (!s.closed ==> h.dismissed == []) && Subsequence(s.wakes, h.enqueued)
  }

  ghost predicate Consistent(h: History, t: System)
    requires Inv(t.sem)
  {
    InLine(h, Wakeups(t.sem)) && EnqueuedOnce(h, t.sem) && CallsLogged(h, t.sem)
  }

  predicate WasPolled(s: Sem, id: nat) {
    id < |s.futs| && !s.futs[id].state.Inert?
  }

  // ---------- What one step does to the queue and the log ----------

  // Handing out permits moves a prefix of the queue to the end of the log.
  lemma AddMovesTickets(s: Sem, n: nat)
    requires WellQueued(s)
    ensures var r := AddPermits(s, n);
            s.wakes <= r.wakes && r.wakes + Wakeups(r) == s.wakes + Wakeups(s)
    decreases |s.queue|
  {
    hide WellQueued, Wakeups;
    if n == 0 || s.queue == [] || Need(s, 0) > n {
      AddKeepsTickets(s, n);
    } else {
      GrantMovesTicket(s);
      AddMovesTickets(Grant(s), n - Need(s, 0));
    }
  }

  lemma AddKeepsTickets(s: Sem, n: nat)
    requires WellQueued(s) && (n == 0 || s.queue == [] || Need(s, 0) > n)
    ensures AddPermits(s, n).wakes == s.wakes && Wakeups(AddPermits(s, n)) == Wakeups(s)
  {
  }

  lemma GrantMovesTicket(s: Sem)
    requires WellQueued(s) && s.queue != []
    ensures Grant(s).wakes + Wakeups(Grant(s)) == s.wakes + Wakeups(s)
    ensures s.wakes <= Grant(s).wakes
  {
    WakeupsAfterGrant(s, |s.queue|);
    assert Wakeups(s)[..|s.queue|] == Wakeups(s);
    assert Wakeups(Grant(s))[..|s.queue| - 1] == Wakeups(Grant(s));
  }

  lemma DetachRemovesTicket(s: Sem, id: nat) returns (k: nat)
    requires Inv(s) && Live(s, id) && id in s.queue
    ensures WellQueued(Detach(s, id)) && Detach(s, id).wakes == s.wakes
    ensures k < |Wakeups(s)| && CanReceive(s, id) && Wakeups(s)[k] == TicketOf(s, id)
    ensures Wakeups(Detach(s, id)) == RemoveAt(Wakeups(s), k)
  {
    DetachKeepsInv(s, id);
    k := DetachedQueue(s, id);
    var d := Detach(s, id);
    assert CanReceive(s, s.queue[k]);
    hide Inv, WellQueued, Detach, RemoveAt;
    forall j | 0 <= j < |d.queue|
      ensures Wakeups(d)[j] == RemoveAt(Wakeups(s), k)[j]
    {
      TicketAfterCancel(s, d, k, j);
    }
  }

  lemma TicketAfterCancel(s: Sem, d: Sem, k: nat, j: nat)
    requires WellQueued(s) && WellQueued(d) && k < |s.queue| && j < |d.queue|
    requires d == Detach(s, s.queue[k]) && d.queue == RemoveAt(s.queue, k)
    ensures Wakeups(d)[j] == RemoveAt(Wakeups(s), k)[j]
  {
    var i := if j < k then j else j + 1;
    assert d.queue[j] == s.queue[i] && s.queue[i] != s.queue[k] && CanReceive(s, s.queue[i]);
  }

  lemma DetachKeepsTickets(s: Sem, id: nat)
    requires Inv(s) && Live(s, id) && id !in s.queue
    ensures WellQueued(Detach(s, id)) && Detach(s, id).wakes == s.wakes
    ensures Wakeups(Detach(s, id)) == Wakeups(s)
  {
    DetachKeepsInv(s, id);
    assert forall j :: 0 <= j < |s.queue| ==> CanReceive(s, s.queue[j]);
  }

  // ---------- The history stays consistent ----------

  lemma GrantsKeepLine(h: History, line: seq<Wake>, woken: seq<Wake>, rest: seq<Wake>)
    requires InLine(h, line) && line == woken + rest
    ensures InLine(h.(granted := h.granted + woken), rest)
  {
    assert h.granted + line == h.granted + woken + rest;
    assert multiset(line) == multiset(woken) + multiset(rest);
  }

  lemma CancelKeepsLine(h: History, line: seq<Wake>, k: nat)
    requires InLine(h, line) && k < |line|
    ensures InLine(h.(cancelled := h.cancelled + [line[k]]), RemoveAt(line, k))
  {
    hide Subsequence, RemoveAt;
    SubsequenceRemove(h.granted + line, h.enqueued, |h.granted| + k);
    RemoveAtConcat(h.granted, line, k);
    RemoveAtMultiset(line, k);
  }

  lemma JoinKeepsLine(h: History, line: seq<Wake>, w: Wake)
    requires InLine(h, line)
    ensures InLine(h.(enqueued := h.enqueued + [w]), line + [w])
  {
    SubsequenceAppend(h.granted + line, h.enqueued, w);
    assert h.granted + line + [w] == h.granted + (line + [w]);
  }

  lemma DismissKeepsLine(h: History, line: seq<Wake>)
    requires InLine(h, line)
    ensures InLine(h.(dismissed := h.dismissed + line), [])
  {
    SubsequencePrefix(h.granted + line, h.enqueued, |h.granted|);
    assert (h.granted + line)[..|h.granted|] == h.granted == h.granted + [];
  }

  lemma AddSplitsTickets(s: Sem, n: nat) returns (woken: seq<Wake>)
    requires WellQueued(s)
    ensures var r := AddPermits(s, n);
            r.wakes == s.wakes + woken && Wakeups(s) == woken + Wakeups(r)
  {
    AddMovesTickets(s, n);
    var r := AddPermits(s, n);
    woken := r.wakes[|s.wakes|..];
    assert r.wakes == s.wakes + woken;
    assert (s.wakes + Wakeups(s))[|s.wakes|..] == Wakeups(s);
    assert (s.wakes + woken + Wakeups(r))[|s.wakes|..] == woken + Wakeups(r);
  }

  predicate Hands(op: Op) {
    op.Add? || op.DropFuture? || op.DropPermit?
  }

  // The history once a cancelled future has left the queue, before its permits are handed on.
  function AfterCancel(h: History, t: System, op: Op): History
    requires Inv(t.sem) && Enabled(t, op)
  {
    if Cancels(t, op) then
      QueuedCanReceive(t.sem, op.id);
      h.(cancelled := h.cancelled + [TicketOf(t.sem, op.id)])
    else h
  }

  lemma CancelStage(h: History, t: System, op: Op)
    requires Inv(t.sem) && Enabled(t, op) && Hands(op) && InLine(h, Wakeups(t.sem))
    ensures HandedTo(t, op).wakes == t.sem.wakes && InLine(AfterCancel(h, t, op), Wakeups(HandedTo(t, op)))
  {
    if Cancels(t, op) {
      var k := DetachRemovesTicket(t.sem, op.id);
      CancelKeepsLine(h, Wakeups(t.sem), k);
    } else if op.DropFuture? {
      DetachKeepsTickets(t.sem, op.id);
    }
    hide Inv, WellQueued, InLine, Wakeups;
  }

  lemma HandsStepIs(t: System, op: Op)
    requires Inv(t.sem) && Enabled(t, op) && Hands(op)
    ensures Step(t, op).sem == AddPermits(HandedTo(t, op), Handed(t, op)) && !Joins(t, op)
  {
    hide WellQueued, AddPermits;
  }

  lemma HandsKeepsLine(h: History, t: System, op: Op)
    requires Inv(t.sem) && Enabled(t, op) && Hands(op) && InLine(h, Wakeups(t.sem))
    ensures InLine(Record(h, t, op), Wakeups(Step(t, op).sem))
    ensures Step(t, op).sem.wakes == t.sem.wakes + NewWakes(t, op)
  {
    CancelStage(h, t, op);
    HandsStepIs(t, op);
    hide Inv, WellQueued, Step, AddPermits, InLine, Wakeups, HandedTo, Handed, Cancels, Joins;
    var s := HandedTo(t, op);
    var woken := AddSplitsTickets(s, Handed(t, op));
    assert NewWakes(t, op) == woken;
    GrantsKeepLine(AfterCancel(h, t, op), Wakeups(s), woken, Wakeups(AddPermits(s, Handed(t, op))));
  }

  lemma CloseKeepsLine(h: History, t: System)
    requires Inv(t.sem) && InLine(h, Wakeups(t.sem))
    ensures InLine(Record(h, t, CloseAll), Wakeups(Step(t, CloseAll).sem))
    ensures Step(t, CloseAll).sem.wakes == t.sem.wakes + NewWakes(t, CloseAll)
  {
    DismissKeepsLine(h, Wakeups(t.sem));
    assert Step(t, CloseAll).sem.wakes == t.sem.wakes + Wakeups(t.sem);
    assert NewWakes(t, CloseAll) == Wakeups(t.sem);
    assert Wakeups(Step(t, CloseAll).sem) == [];
  }

  lemma PollMovesTickets(s: Sem, id: nat, cx: Waker)
    requires Inv(s) && Live(s, id)
    ensures var r := PollAcquire(s, id, cx).0;
            && Inv(r) && r.wakes == s.wakes
            && Wakeups(r) == (if id !in s.queue && id in r.queue then Wakeups(s) + [Wake(id, cx)] else Wakeups(s))
            && (id !in s.queue && id in r.queue ==> s.futs[id].state.Inert? && r.futs[id].state.Waiting?)
  {
    PollKeepsInv(s, id, cx);
    var r := PollAcquire(s, id, cx).0;
    assert forall k :: 0 <= k < |s.queue| ==> Enqueued(s, s.queue[k]) && CanReceive(s, s.queue[k]);
    assert forall k :: 0 <= k < |s.queue| ==> r.queue[k] == s.queue[k] && r.futs[s.queue[k]] == s.futs[s.queue[k]];
    if s.closed || s.futs[id].state.Woken? {
      assert id !in r.queue;
    }
  }

  lemma PollStepIs(t: System, op: Op)
    requires Inv(t.sem) && Enabled(t, op) && op.PollFuture?
    ensures var (s, r) := (t.sem, Step(t, op).sem);
            && NewWakes(t, op) == [] && r.wakes == s.wakes
            && Wakeups(r) == if Joins(t, op) then Wakeups(s) + [Wake(op.id, op.cx)] else Wakeups(s)
  {
    assert WellQueued(t.sem);
    hide Inv, WellQueued, PollAcquire, Wakeups;
    PollMovesTickets(t.sem, op.id, op.cx);
  }

  lemma PollRecord(h: History, t: System, op: Op)
    requires Inv(t.sem) && Enabled(t, op) && op.PollFuture? && NewWakes(t, op) == []
    ensures Record(h, t, op) == if Joins(t, op) then h.(enqueued := h.enqueued + [Wake(op.id, op.cx)]) else h
  {
    hide Inv, Step, NewWakes, Joins;
    assert h.granted + [] == h.granted;
  }

  lemma PollKeepsLine(h: History, t: System, op: Op)
    requires Inv(t.sem) && Enabled(t, op) && op.PollFuture? && InLine(h, Wakeups(t.sem))
    ensures InLine(Record(h, t, op), Wakeups(Step(t, op).sem))
    ensures Step(t, op).sem.wakes == t.sem.wakes + NewWakes(t, op)
  {
    var line := Wakeups(t.sem);
    hide *;
    PollStepIs(t, op);
    PollRecord(h, t, op);
    if Joins(t, op) {
      JoinKeepsLine(h, line, Wake(op.id, op.cx));
    }
  }

  // The operations that neither hand out permits nor touch a future that has been polled.
  predicate LeavesQueue(op: Op) {
    op.Build? || op.TryAcquireMany? || op.Remove? || op.ForgetPermit?
  }

  lemma QuietKeepsTickets(t: System, op: Op)
    requires Inv(t.sem) && Enabled(t, op) && LeavesQueue(op)
    ensures Wakeups(Step(t, op).sem) == Wakeups(t.sem) && Step(t, op).sem.wakes == t.sem.wakes
  {
    var r := Step(t, op).sem;
    forall k | 0 <= k < |t.sem.queue|
      ensures Wakeups(r)[k] == Wakeups(t.sem)[k]
    {
      assert CanReceive(t.sem, t.sem.queue[k]);
    }
  }

  lemma QuietKeepsLine(h: History, t: System, op: Op)
    requires Inv(t.sem) && Enabled(t, op) && LeavesQueue(op) && InLine(h, Wakeups(t.sem))
    ensures InLine(Record(h, t, op), Wakeups(Step(t, op).sem))
    ensures Step(t, op).sem.wakes == t.sem.wakes + NewWakes(t, op)
  {
    hide Inv, Step, Wakeups, InLine;
    QuietKeepsTickets(t, op);
    assert NewWakes(t, op) == [] && h.granted + [] == h.granted;
  }

  lemma StepKeepsLine(h: History, t: System, op: Op)
    requires Inv(t.sem) && Enabled(t, op) && InLine(h, Wakeups(t.sem))
    ensures InLine(Record(h, t, op), Wakeups(Step(t, op).sem))
    ensures Step(t, op).sem.wakes == t.sem.wakes + NewWakes(t, op)
  {
    hide Inv, Step, Wakeups, InLine, Record;
    if Hands(op) {
      HandsKeepsLine(h, t, op);
    } else if op.CloseAll? {
      CloseKeepsLine(h, t);
    } else if op.PollFuture? {
      PollKeepsLine(h, t, op);
    } else {
      QuietKeepsLine(h, t, op);
    }
  }

  // ---------- No future enters the queue twice ----------

  lemma StepKeepsPolled(t: System, op: Op, id: nat)
    requires Inv(t.sem) && Enabled(t, op) && WasPolled(t.sem, id)
    ensures WasPolled(Step(t, op).sem, id)
  {
    match op
    case DropFuture(j) =>
      DetachKeepsInv(t.sem, j);
      AddKeepsPolled(Detach(t.sem, j), t.sem.futs[j].permits, id);
    case Add(n) => AddKeepsPolled(t.sem, n, id);
    case DropPermit(k) => AddKeepsPolled(t.sem, t.issued[k], id);
    case _ =>
  }

  lemma {:induction false} AddKeepsPolled(s: Sem, n: nat, id: nat)
    requires WellQueued(s) && WasPolled(s, id)
    ensures WasPolled(AddPermits(s, n), id)
    decreases |s.queue|
  {
    if n > 0 && s.queue != [] && Need(s, 0) <= n {
      AddKeepsPolled(Grant(s), n - Need(s, 0), id);
    }
  }

  lemma JoiningIsFirst(t: System, op: Op)
    requires Inv(t.sem) && Enabled(t, op) && Joins(t, op)
    ensures !WasPolled(t.sem, op.id) && WasPolled(Step(t, op).sem, op.id)
  {
    PollMovesTickets(t.sem, op.id, op.cx);
  }

  lemma StepKeepsEnqueuedOnce(h: History, t: System, op: Op)
    requires Inv(t.sem) && Enabled(t, op) && EnqueuedOnce(h, t.sem)
    ensures EnqueuedOnce(Record(h, t, op), Step(t, op).sem)
  {
    hide Inv, Step, WasPolled, Joins;
    var g := Record(h, t, op);
    forall i | 0 <= i < |g.enqueued|
      ensures WasPolled(Step(t, op).sem, g.enqueued[i].fut)
    {
      if i < |h.enqueued| {
        StepKeepsPolled(t, op, h.enqueued[i].fut);
      } else {
        JoiningIsFirst(t, op);
      }
    }
    if Joins(t, op) {
      JoiningIsFirst(t, op);
    }
  }

  lemma StepCloses(t: System, op: Op)
    requires Inv(t.sem) && Enabled(t, op)
    ensures Step(t, op).sem.closed == (t.sem.closed || op.CloseAll?)
  {
    match op
    case DropFuture(j) =>
      DetachKeepsInv(t.sem, j);
      AddKeepsInv(Detach(t.sem, j), t.sem.futs[j].permits);
    case Add(n) => AddKeepsInv(t.sem, n);
    case DropPermit(k) => AddKeepsInv(t.sem, t.issued[k]);
    case _ =>
  }

  // On a closed semaphore nobody is woken or enqueued any more.
  lemma ClosedIsSilent(t: System, op: Op)
    requires Inv(t.sem) && Enabled(t, op) && t.sem.closed
    ensures NewWakes(t, op) == [] && !Joins(t, op)
  {
    ClosedMeansEmpty(t.sem);
    StepCloses(t, op);
    ClosedMeansEmpty(Step(t, op).sem);
    if Hands(op) {
      var s, n := HandedTo(t, op), Handed(t, op);
      assert Step(t, op).sem == AddPermits(s, n);
      AddNothing(s);
      AddToPool(s, n);
    }
  }

  lemma ClosedKeepsLog(h: History, t: System, op: Op)
    requires Inv(t.sem) && Enabled(t, op) && t.sem.closed && CallsLogged(h, t.sem)
    requires Step(t, op).sem.wakes == t.sem.wakes + NewWakes(t, op)
    ensures CallsLogged(Record(h, t, op), Step(t, op).sem)
  {
    hide Inv, Step, NewWakes, Joins, Cancels, Subsequence;
    StepCloses(t, op);
    ClosedIsSilent(t, op);
    assert h.granted + [] == h.granted && h.dismissed + [] == h.dismissed && t.sem.wakes + [] == t.sem.wakes;
  }

  lemma CloseKeepsLog(h: History, t: System)
    requires Inv(t.sem) && !t.sem.closed && InLine(h, Wakeups(t.sem)) && CallsLogged(h, t.sem)
    ensures CallsLogged(Record(h, t, CloseAll), Step(t, CloseAll).sem)
  {
    CloseWakesQueue(t);
    hide Inv, Step, NewWakes, Wakeups, Subsequence;
    StepCloses(t, CloseAll);
    assert h.granted + [] == h.granted && [] + Wakeups(t.sem) == Wakeups(t.sem);
  }

  lemma OpenKeepsLog(h: History, t: System, op: Op)
    requires Inv(t.sem) && Enabled(t, op) && !t.sem.closed && !op.CloseAll? && CallsLogged(h, t.sem)
    requires Step(t, op).sem.wakes == t.sem.wakes + NewWakes(t, op)
    requires InLine(Record(h, t, op), Wakeups(Step(t, op).sem))
    ensures CallsLogged(Record(h, t, op), Step(t, op).sem)
  {
    var g, line := Record(h, t, op), Wakeups(Step(t, op).sem);
    hide Inv, Step, NewWakes, Joins, Cancels, Wakeups, Subsequence;
    StepCloses(t, op);
    assert h.granted + [] == h.granted && g.granted + [] == g.granted;
    SubsequencePrefix(g.granted + line, g.enqueued, |g.granted|);
    assert (g.granted + line)[..|g.granted|] == g.granted;
  }

  lemma StepKeepsLog(h: History, t: System, op: Op)
    requires Inv(t.sem) && Enabled(t, op) && InLine(h, Wakeups(t.sem)) && CallsLogged(h, t.sem)
    requires Step(t, op).sem.wakes == t.sem.wakes + NewWakes(t, op)
    requires InLine(Record(h, t, op), Wakeups(Step(t, op).sem))
    ensures CallsLogged(Record(h, t, op), Step(t, op).sem)
  {
    hide *;
    if t.sem.closed {
      ClosedKeepsLog(h, t, op);
    } else if op.CloseAll? {
      CloseKeepsLog(h, t);
    } else {
      OpenKeepsLog(h, t, op);
    }
  }

  lemma CloseWakesQueue(t: System)
    requires Inv(t.sem)
    ensures NewWakes(t, CloseAll) == Wakeups(t.sem)
    ensures Step(t, CloseAll).sem.wakes == t.sem.wakes + NewWakes(t, CloseAll)
  {
    assert Step(t, CloseAll).sem.wakes == t.sem.wakes + Wakeups(t.sem);
  }

  lemma {:induction false} RunKeepsConsistent(h: History, t: System, ops: seq<Op>)
    requires Inv(t.sem) && Possible(t, ops) && Consistent(h, t)
    ensures Consistent(RecordRun(h, t, ops), Run(t, ops))
    decreases |ops|
  {
    hide Inv, Step, Enabled, InLine, EnqueuedOnce, CallsLogged, Record, Wakeups;
    if ops != [] {
      StepKeepsLine(h, t, ops[0]);
      StepKeepsEnqueuedOnce(h, t, ops[0]);
      StepKeepsLog(h, t, ops[0]);
      RunKeepsConsistent(Record(h, t, ops[0]), Step(t, ops[0]), ops[1..]);
    }
  }

  // First come, first served, on every run of a new semaphore and for every mix of request sizes:
  // futures are granted in the order in which they were enqueued; every enqueued future is still
  // queued or has been granted, dismissed or cancelled, exactly one of these; and the waker calls
  // are one call for each granted and then each dismissed future, with the waker it first
  // registered, all of them in the order in which the futures were enqueued.
  lemma FirstComeFirstServed(permits: usize, ops: seq<Op>)
    requires Possible(NewSystem(permits), ops)
    ensures var t := NewSystem(permits);
            var h := RecordRun(NoHistory(), t, ops);
            var s := Run(t, ops).sem;
            && Subsequence(h.granted, h.enqueued)
            && (forall i, j :: 0 <= i < j < |h.enqueued| ==> h.enqueued[i].fut != h.enqueued[j].fut)
            && multiset(h.enqueued)
               == multiset(Wakeups(s)) + multiset(h.granted) + multiset(h.dismissed) + multiset(h.cancelled)
            && s.wakes == h.granted + h.dismissed && Subsequence(s.wakes, h.enqueued)
  {
    var t := NewSystem(permits);
    var h := RecordRun(NoHistory(), t, ops);
    var s := Run(t, ops).sem;
    assert Consistent(NoHistory(), t);
    RunKeepsConsistent(NoHistory(), t, ops);
    SubsequencePrefix(h.granted + Wakeups(s), h.enqueued, |h.granted|);
    assert (h.granted + Wakeups(s))[..|h.granted|] == h.granted;
  }

  // ---------- Closing is final ----------

  lemma ClosedMeansEmpty(s: Sem)
    requires Inv(s)
    ensures s.closed ==> s.queue == []
  {
    if s.queue != [] {
      assert s.queue[0] in s.queue;
      assert FutOk(s.futs[s.queue[0]], s.closed);
    }
  }

  // The operation hands a permit to its caller.
  predicate Issues(t: System, op: Op)
    requires Enabled(t, op)
  {
    match op
    case PollFuture(id, cx) => var p := PollAcquire(t.sem, id, cx).1; p.Ready? && p.result.Ok?
    case TryAcquireMany(n) => TryAcquire(t.sem, true, n).1.Ok?
    case _ => false
  }

  predicate NeverIssues(t: System, ops: seq<Op>)
    requires Inv(t.sem) && Possible(t, ops)
    decreases |ops|
  {
    ops == [] || (!Issues(t, ops[0]) && NeverIssues(Step(t, ops[0]), ops[1..]))
  }

  lemma StepKeepsClosed(t: System, op: Op)
    requires Inv(t.sem) && Enabled(t, op) && t.sem.closed
    ensures t.sem.queue == [] && Step(t, op).sem.closed && !Issues(t, op)
    ensures op.PollFuture? ==> PollAcquire(t.sem, op.id, op.cx).1 == Ready(Err(AcquireError))
    ensures op.TryAcquireMany? ==> TryAcquire(t.sem, true, op.n).1 == Err(Closed)
  {
    ClosedMeansEmpty(t.sem);
    match op
    case DropFuture(j) =>
      DetachKeepsInv(t.sem, j);
      AddKeepsInv(Detach(t.sem, j), t.sem.futs[j].permits);
    case Add(n) => AddKeepsInv(t.sem, n);
    case DropPermit(k) => AddKeepsInv(t.sem, t.issued[k]);
    case _ =>
  }

  // On a closed semaphore accounting is exact for every request size, up to the machine word.
  lemma ClosedStepConserves(t: System, op: Op)
    requires Inv(t.sem) && Enabled(t, op) && t.sem.closed && Total(t) + Added(op) <= USIZE_MAX
    ensures Total(Step(t, op)) == Total(t) + Added(op) - Withdrawn(t, op)
  {
    StepKeepsClosed(t, op);
    if op.DropFuture? {
      DetachKeepsInv(t.sem, op.id);
      SumAtLeast(Holdings(t.sem.futs), op.id);
    } else if op.DropPermit? {
      SumAtLeast(t.issued, op.k);
    }
    var s := HandedTo(t, op);
    assert s.queue == [];
    PrefixZero(s, Handed(t, op));
    hide Inv, WellQueued, Step;
    StepConserves(t, op);
  }

  // Closing is terminal: on every later run no call issues a permit, and in every later state the
  // semaphore is closed and nobody is queued.
  lemma {:induction false} ClosedForGood(t: System, ops: seq<Op>)
    requires Inv(t.sem) && Possible(t, ops) && t.sem.closed
    ensures NeverIssues(t, ops) && Run(t, ops).sem.closed && Run(t, ops).sem.queue == []
    decreases |ops|
  {
    if ops == [] {
      StepKeepsClosed(t, CloseAll);
    } else {
      hide Inv, Step, Enabled, Issues;
      StepKeepsClosed(t, ops[0]);
      ClosedForGood(Step(t, ops[0]), ops[1..]);
    }
  }

  // Closing loses nothing: for every mix of request sizes the permits that exist change only by what
  // the callers add or withdraw.
  lemma {:induction false} ClosedRunConserves(t: System, ops: seq<Op>)
    requires Inv(t.sem) && Possible(t, ops) && t.sem.closed
    requires Total(t) + AddedIn(ops) <= USIZE_MAX
    ensures Total(Run(t, ops)) == Total(t) + AddedIn(ops) - WithdrawnIn(t, ops)
    decreases |ops|
  {
    if ops != [] {
      hide Inv, Step, Enabled, Total;
      StepKeepsClosed(t, ops[0]);
      ClosedStepConserves(t, ops[0]);
      ClosedRunConserves(Step(t, ops[0]), ops[1..]);
    }
  }

  // Once every future and every permit is gone, all permits are in the pool.
  lemma AllReturned(t: System)
    requires Inv(t.sem) && t.issued == [] && forall id :: 0 <= id < |t.sem.futs| ==> !t.sem.futs[id].live
    ensures t.sem.permits == Total(t)
  {
    assert forall id :: 0 <= id < |t.sem.futs| ==> FutOk(t.sem.futs[id], t.sem.closed);
    SumOfZeros(Holdings(t.sem.futs));
  }

  // Close, then let every holder drop what it has: the pool ends up with exactly the permits that
  // existed when the semaphore was closed.
  lemma CloseLosesNothing(t: System, ops: seq<Op>)
    requires Inv(t.sem) && Possible(Step(t, CloseAll), ops) && Total(t) + AddedIn(ops) <= USIZE_MAX
    requires WithdrawnIn(Step(t, CloseAll), ops) == 0
    requires var r := Run(Step(t, CloseAll), ops);
             r.issued == [] && forall id :: 0 <= id < |r.sem.futs| ==> !r.sem.futs[id].live
    ensures Run(Step(t, CloseAll), ops).sem.permits == Total(t) + AddedIn(ops)
  {
    CloseLedger(t.sem);
    var u := Step(t, CloseAll);
    assert Total(u) == Total(t);
    hide Inv, Step, Total;
    ClosedRunConserves(u, ops);
    AllReturned(Run(u, ops));
  }
}
