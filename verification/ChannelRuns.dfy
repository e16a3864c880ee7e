/** What holds on every run of a bounded channel, however the calls of its users are interleaved:
    capacity is conserved, no element is lost, duplicated or reordered, and sender handles are
    counted exactly. */
module ChannelRuns {
  import opened Basics
  import opened SemaphoreModel
  import opened SemaphoreGrants
  import opened MaskModel
  import opened ChannelModel
  import opened ChannelSlots
  import opened ChannelWorld
  import opened ChannelSafety
  import opened ChannelEffects

  // The calls can be made one after the other.
  predicate Possible<T>(w: World<T>, calls: seq<Call<T>>)
    requires Good(w)
    decreases |calls|
  {
    calls == [] || (Enabled(w, calls[0]) && Possible(Next(w, calls[0]), calls[1..]))
  }

  function Run<T>(w: World<T>, calls: seq<Call<T>>): (r: World<T>)
    requires Good(w) && Possible(w, calls)
    ensures Good(r)
    decreases |calls|
  {
    if calls == [] then w else Run(Next(w, calls[0]), calls[1..])
  }

  lemma RunCons<T>(w: World<T>, call: Call<T>, calls: seq<Call<T>>)
    requires Good(w) && Enabled(w, call) && Possible(Next(w, call), calls)
    ensures Possible(w, [call] + calls) && Run(w, [call] + calls) == Run(Next(w, call), calls)
  {
    hide Good, Enabled, Next;
    assert ([call] + calls)[1..] == calls;
  }

  // A channel created with a capacity and initial elements.
  function Created<T>(capacity: usize, elems: seq<T>): (w: World<T>)
    requires |elems| <= USIZE_MAX
    ensures Good(w)
  {
    EmptySemaphore(ChannelFrom(capacity, elems).sem);
    NewWorld(ChannelFrom(capacity, elems))
  }

  // `new` creates the channel without elements, or panics on a capacity of zero.
  lemma NewIsCreated<T>(capacity: usize)
    ensures NewChannel<T>(capacity) == if capacity > 0 then Some(Created<T>(capacity, []).chan) else None
  {
  }

  // A created channel is open, its capacity is what was asked for unless there are more elements, and
  // what they do not take is free.
  lemma CreatedExactly<T>(capacity: usize, elems: seq<T>)
    requires |elems| <= USIZE_MAX
    ensures var w := Created(capacity, elems);
            && w.chan.maxCapacity == (if |elems| <= capacity then capacity else |elems|)
            && w.chan.sem.permits == w.chan.maxCapacity - |elems| && w.chan.elems == elems
            && !w.chan.sem.closed && w.chan.sem.queue == [] && w.chan.sem.futs == [] && w.chan.sem.wakes == []
            && w.chan.reserved == 0 && w.chan.mask == Packed(0, false) && w.chan.waker == None && w.chan.calls == []
            && !w.split && Unshared(w) && w.sent == [] && w.received == []
  {
  }

  // ---------- Capacity ----------

  // How many elements were still queued at the last split of the run, if there is one.
  function Leftover<T>(w: World<T>, calls: seq<Call<T>>, before: nat): nat
    requires Good(w) && Possible(w, calls)
    decreases |calls|
  {
    if calls == [] then before
    else Leftover(Next(w, calls[0]), calls[1..], if calls[0].Split? then |w.chan.elems| else before)
  }

  lemma {:induction false} BookedOverRuns<T>(w: World<T>, calls: seq<Call<T>>, before: nat)
    requires Good(w) && Possible(w, calls) && w.booked == w.chan.maxCapacity + before
    ensures var r := Run(w, calls);
            r.chan.maxCapacity == w.chan.maxCapacity && r.booked == r.chan.maxCapacity + Leftover(w, calls, before)
    decreases |calls|
  {
    if calls != [] {
      CallEffect(w, calls[0]);
      hide Good, Next;
      BookedOverRuns(Next(w, calls[0]), calls[1..], if calls[0].Split? then |w.chan.elems| else before);
    }
  }

  // The capacity is conserved on every run: pool, woken futures that have not resolved, queue and
  // reservations hold it, and what was queued at the last split comes on top.
  lemma CapacityConserved<T>(capacity: usize, elems: seq<T>, calls: seq<Call<T>>)
    requires |elems| <= USIZE_MAX && Possible(Created(capacity, elems), calls)
    ensures var c := Run(Created(capacity, elems), calls).chan;
            && c.maxCapacity == (if |elems| <= capacity then capacity else |elems|)
            && c.sem.permits + Sum(Holdings(c.sem.futs)) + |c.elems| + c.reserved
               == c.maxCapacity + Leftover(Created(capacity, elems), calls, 0) <= USIZE_MAX
  {
    var w := Created(capacity, elems);
    BookedOverRuns(w, calls, 0);
  }

  // Every split of the run happens while nothing is queued.
  predicate Tidy<T>(w: World<T>, calls: seq<Call<T>>)
    requires Good(w) && Possible(w, calls)
    decreases |calls|
  {
    calls == [] || ((calls[0].Split? ==> w.chan.elems == []) && Tidy(Next(w, calls[0]), calls[1..]))
  }

  lemma {:induction false} TidyLeavesNothing<T>(w: World<T>, calls: seq<Call<T>>)
    requires Good(w) && Possible(w, calls) && Tidy(w, calls)
    ensures Leftover(w, calls, 0) == 0
    decreases |calls|
  {
    if calls != [] {
      TidyLeavesNothing(Next(w, calls[0]), calls[1..]);
    }
  }

  // On such runs no part of the sum exceeds the capacity, and splitting cannot overflow.
  lemma TidyRunsStayWithinCapacity<T>(capacity: usize, elems: seq<T>, calls: seq<Call<T>>)
    requires |elems| <= USIZE_MAX && Possible(Created(capacity, elems), calls) && Tidy(Created(capacity, elems), calls)
    ensures var c := Run(Created(capacity, elems), calls).chan;
            && c.sem.permits + Sum(Holdings(c.sem.futs)) + |c.elems| + c.reserved == c.maxCapacity
            && SetCounted(c).Some?
  {
    var w := Created(capacity, elems);
    CapacityConserved(capacity, elems, calls);
    TidyLeavesNothing(w, calls);
  }

  // On every run, a channel that nothing borrows can be split without overflow if and only if at
  // least as many elements are queued as at the last split.
  lemma SplitOverflowsExactly<T>(capacity: usize, elems: seq<T>, calls: seq<Call<T>>)
    requires |elems| <= USIZE_MAX && Possible(Created(capacity, elems), calls)
    requires Unshared(Run(Created(capacity, elems), calls))
    ensures var w := Created(capacity, elems);
            SetCounted(Run(w, calls).chan).Some? <==> Leftover(w, calls, 0) <= |Run(w, calls).chan.elems|
  {
    var w := Created(capacity, elems);
    CapacityConserved(capacity, elems, calls);
    hide Run, Possible, Created, Leftover;
    PoolOfUnshared(Run(w, calls));
  }

  lemma PoolOfUnshared<T>(w: World<T>)
    requires Good(w) && Unshared(w)
    ensures Sum(Holdings(w.chan.sem.futs)) == 0 && w.chan.reserved == 0
    ensures SetCounted(w.chan).Some? <==> w.chan.sem.permits <= w.chan.maxCapacity
  {
    NoTaskNoFuture(w);
    NobodyHolds(w.chan.sem);
  }

  // ---------- Elements ----------

  // What has been received and what is still queued is, in order, what was there initially and
  // what has been sent since.
  lemma {:induction false} ValueHistory<T>(w: World<T>, calls: seq<Call<T>>, initial: seq<T>)
    requires Good(w) && Possible(w, calls) && initial + w.sent == w.received + w.chan.elems
    ensures var r := Run(w, calls); initial + r.sent == r.received + r.chan.elems
    decreases |calls|
  {
    if calls != [] {
      var r := Next(w, calls[0]);
      CallEffect(w, calls[0]);
      Reassociated(initial, w.sent, w.received, w.chan.elems, Delivered(w, calls[0]), Taken(w, calls[0]), r.chan.elems);
      hide Good, Next, Taken, Delivered;
      ValueHistory(r, calls[1..], initial);
    }
  }

  lemma Reassociated<T>(initial: seq<T>, sent: seq<T>, received: seq<T>,
                        before: seq<T>, d: seq<T>, t: seq<T>, after: seq<T>)
    requires initial + sent == received + before && before + d == t + after
    ensures initial + (sent + d) == (received + t) + after
  {
    assert initial + (sent + d) == (initial + sent) + d;
    assert received + (before + d) == (received + before) + d;
    assert received + (t + after) == (received + t) + after;
  }

  lemma NothingIsLost<T>(capacity: usize, elems: seq<T>, calls: seq<Call<T>>)
    requires |elems| <= USIZE_MAX && Possible(Created(capacity, elems), calls)
    ensures var r := Run(Created(capacity, elems), calls);
            elems + r.sent == r.received + r.chan.elems
  {
    var w := Created(capacity, elems);
    hide Good, Possible, Run;
    ValueHistory(w, calls, elems);
  }

  // ---------- Sender handles ----------

  // The queue reports that the last sender is gone.
  predicate ReportsLast<T>(w: World<T>, call: Call<T>)
    requires Good(w) && Enabled(w, call)
  {
    DropsHandle(w, call) && (HandleInUse(w, call); DecreaseSenders(w.chan.mask).1)
  }

  // It does so when the number of handles becomes zero.
  lemma HandlesStep<T>(w: World<T>, call: Call<T>)
    requires Good(w) && Enabled(w, call)
    ensures var r := Next(w, call);
            && r.chan.mask == Packed(Handles(r), ClosedFlag(r))
            && (ClosedFlag(r) <==> ClosedFlag(w) || ReportsLast(w, call) || call.CloseReceiver? || call.DropReceiver?)
            && Handles(r) == Handles(w)
                             + (if call.Split? || call.CloneSender? then 1 else 0)
                             - (if DropsHandle(w, call) then 1 else 0)
            && (ReportsLast(w, call) <==> Handles(w) > 0 && Handles(r) == 0)
            && (call.Split? ==> Handles(w) == 0)
  {
    var r := Next(w, call);
    CallEffect(w, call);
    if DropsHandle(w, call) {
      HandleInUse(w, call);
    }
    assert Accounted(w) && Accounted(r);
    CountedMeaning(Handles(w), ClosedFlag(w));
    UncountedMeaning(ClosedFlag(w));
    hide Good, Inv, Next, Handles, ClosedFlag;
    MaskDetermines(w, r);
  }

  lemma MaskDetermines<T>(w: World<T>, r: World<T>)
    requires Accounted(w) && Accounted(r)
    ensures forall n: nat, b :: r.chan.mask == Packed(n, b) ==> Handles(r) == n && ClosedFlag(r) == b
  {
    forall n: nat, b | r.chan.mask == Packed(n, b)
      ensures Handles(r) == n && ClosedFlag(r) == b
    {
      PackedInjective(n, b, Handles(r), ClosedFlag(r));
    }
  }

  function Reports<T>(w: World<T>, calls: seq<Call<T>>): nat
    requires Good(w) && Possible(w, calls)
    decreases |calls|
  {
    if calls == [] then 0
    else (if ReportsLast(w, calls[0]) then 1 else 0) + Reports(Next(w, calls[0]), calls[1..])
  }

  function Splits<T>(calls: seq<Call<T>>): nat {
    if calls == [] then 0 else (if calls[0].Split? then 1 else 0) + Splits(calls[1..])
  }

  // Every split is followed by exactly one report of the last sender, as soon as no handle is left.
  lemma {:induction false} LastSenderReportedOnce<T>(w: World<T>, calls: seq<Call<T>>)
    requires Good(w) && Possible(w, calls)
    ensures Reports(w, calls) + (if Handles(Run(w, calls)) > 0 then 1 else 0)
         == Splits(calls) + (if Handles(w) > 0 then 1 else 0)
    ensures ClosedFlag(w) ==> ClosedFlag(Run(w, calls))
    decreases |calls|
  {
    if calls != [] {
      HandlesStep(w, calls[0]);
      hide Good, Next, Handles, ClosedFlag, ReportsLast;
      LastSenderReportedOnce(Next(w, calls[0]), calls[1..]);
    }
  }

  // ---------- Splitting twice ----------

  // A channel of capacity two on which no send has ever been started; `senders` are all its handles.
  function Quiet<T>(permits: nat, closed: bool, elems: seq<T>, mask: nat, split: bool, senders: nat,
                    receiver: bool, booked: nat, received: seq<T>): World<T> {
    World(Chan(Sem(permits, closed, [], [], []), elems, 2, 0, mask, None, []),
          [], split, senders, receiver, 0, 0, [], false, booked, [], received)
  }

  lemma QuietSplit<T>(w: World<T>, a: T, b: T)
    requires w == Created(2, [a, b])
    ensures Enabled(w, Split) && Next(w, Split) == Quiet(2, false, [a, b], 2, true, 1, true, 4, [])
  {
    AddToPool(w.chan.sem, 2);
    hide Good, Inv, AddPermits;
  }

  lemma QuietReceive<T>(w: World<T>, a: T, b: T)
    requires w == Quiet(2, false, [a, b], 2, true, 1, true, 4, []) && Good(w)
    ensures Enabled(w, CallTryRecv) && Next(w, CallTryRecv) == Quiet(3, false, [b], 2, true, 1, true, 4, [a])
  {
    AddToPool(w.chan.sem, 1);
    hide Good, Inv, AddPermits;
  }

  lemma QuietDropSender<T>(w: World<T>, a: T, b: T)
    requires w == Quiet(3, false, [b], 2, true, 1, true, 4, [a]) && Good(w)
    ensures Enabled(w, DropSender) && Next(w, DropSender) == Quiet(3, false, [b], 1, true, 0, true, 4, [a])
  {
    hide Good, Inv;
  }

  lemma QuietDropReceiver<T>(w: World<T>, a: T, b: T)
    requires w == Quiet(3, false, [b], 1, true, 0, true, 4, [a]) && Good(w)
    ensures Enabled(w, DropReceiver) && Next(w, DropReceiver) == Quiet(3, true, [b], 1, true, 0, false, 4, [a])
  {
    hide Good, Inv;
  }

  lemma QuietRejoin<T>(w: World<T>, a: T, b: T)
    requires w == Quiet(3, true, [b], 1, true, 0, false, 4, [a]) && Good(w)
    ensures Enabled(w, Rejoin) && Next(w, Rejoin) == Quiet(3, true, [b], 1, false, 0, false, 4, [a])
  {
    hide Good, Inv;
  }

  lemma QuietEnd<T>(w: World<T>, a: T, b: T)
    requires w == Quiet(3, true, [b], 1, false, 0, false, 4, [a]) && Good(w)
    ensures MaySplit(w) && !Enabled(w, Split) && Units(w.chan) == 4 && SetCounted(w.chan).None?
    ensures w.chan.maxCapacity == 2 && w.chan.sem.permits == 3
  {
    EmptySemaphore(w.chan.sem);
    hide Good, Inv;
  }

  lemma NoCalls<T>(w: World<T>)
    requires Good(w)
    ensures Possible(w, []) && Run(w, []) == w
  {
  }

  lemma QuietRun<T>(w: World<T>, a: T, b: T)
    requires w == Created(2, [a, b])
    ensures var calls := [Split, CallTryRecv, DropSender, DropReceiver, Rejoin];
            Possible(w, calls) && Run(w, calls) == Quiet(3, true, [b], 1, false, 0, false, 4, [a])
  {
    hide *;
    var c: seq<Call<T>> := [Split, CallTryRecv, DropSender, DropReceiver, Rejoin];
    QuietSplit(w, a, b);
    var w1 := Next(w, c[0]);
    QuietReceive(w1, a, b);
    var w2 := Next(w1, c[1]);
    QuietDropSender(w2, a, b);
    var w3 := Next(w2, c[2]);
    QuietDropReceiver(w3, a, b);
    var w4 := Next(w3, c[3]);
    QuietRejoin(w4, a, b);
    NoCalls(Next(w4, c[4]));
    RunCons(w4, c[4], []);
    RunCons(w3, c[3], [c[4]] + []);
    RunCons(w2, c[2], [c[3]] + ([c[4]] + []));
    RunCons(w1, c[1], [c[2]] + ([c[3]] + ([c[4]] + [])));
    RunCons(w, c[0], [c[1]] + ([c[2]] + ([c[3]] + ([c[4]] + []))));
    assert [c[0]] + ([c[1]] + ([c[2]] + ([c[3]] + ([c[4]] + [])))) == c;
  }

  // A channel is created from two elements with capacity two, split at once and used until all its
  // handles are gone, after one element has been received.  Then it may be split again, but that
  // panics: three permits are available where the capacity is two.
  lemma SplitOverbooks<T>(a: T, b: T)
    ensures var calls := [Split, CallTryRecv, DropSender, DropReceiver, Rejoin];
            && Possible(Created(2, [a, b]), calls)
            && var w := Run(Created(2, [a, b]), calls);
            && MaySplit(w) && !Enabled(w, Split)
            && w.chan.maxCapacity == 2 && w.chan.sem.permits == 3 && Units(w.chan) == 4
            && SetCounted(w.chan).None?
  {
    QuietRun(Created(2, [a, b]), a, b);
    hide Possible, Run, Created;
    QuietEnd(Run(Created(2, [a, b]), [Split, CallTryRecv, DropSender, DropReceiver, Rejoin]), a, b);
  }
}
