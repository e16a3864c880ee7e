/** The semaphore of src/semaphore.rs as a value, and what each operation does to it.

    Futures are numbered in the order in which they are built.  A future that has been dropped
    keeps its number but is no longer live and holds no permits. */
module SemaphoreModel {
  import opened Basics

  datatype WaiterState = Inert | Waiting | Woken

  // An Acquire future with the waiter embedded in it.  `done` records that a poll has already
  // returned Ready; the program does not store it.
  datatype Fut = Fut(wants: nat, state: WaiterState, permits: nat, waker: Option<Waker>, done: bool, live: bool)

  // One call of the waker that future `fut` registered.
  datatype Wake = Wake(fut: nat, waker: Waker)

  // `queue` is the linked list of waiters, front first; `wakes` logs every waker call made so far.
  datatype Sem = Sem(permits: nat, closed: bool, queue: seq<nat>, futs: seq<Fut>, wakes: seq<Wake>)

  datatype TryAcquireError = Closed | NoPermits

  datatype AcquireError = AcquireError

  // The outcome of polling an Acquire future; a permit is represented by its count.
  datatype Poll = Pending | Ready(result: Result<nat, AcquireError>)

  function NewSemaphore(permits: nat): Sem {
    Sem(permits, false, [], [], [])
  }

  // ---------- What every reachable state satisfies ----------

  predicate Live(s: Sem, id: nat) {
    id < |s.futs| && s.futs[id].live
  }

  predicate FutOk(f: Fut, closed: bool) {
    && f.permits <= f.wants <= USIZE_MAX
    && (!f.live ==> f.permits == 0)
    && (f.live && f.state.Inert? ==> f.permits == 0 && f.waker.None? && !f.done)
    && (f.live && f.state.Waiting? ==> f.permits < f.wants && f.waker.Some? && !f.done && !closed)
    && (f.live && f.state.Woken? && !closed ==> f.permits == if f.done then 0 else f.wants)
  }

  predicate Enqueued(s: Sem, id: nat) {
    Live(s, id) && s.futs[id].state.Waiting?
  }

  // Future `id` can be given permits: it misses some, and it has a waker to call.
  predicate CanReceive(s: Sem, id: nat) {
    && id < |s.futs|
    && s.futs[id].permits < s.futs[id].wants
    && s.futs[id].waker.Some?
  }

  // What handing out permits relies on: permits are only available while nobody waits, and only
  // the front of the queue can have received a part of what it wants.
  predicate WellQueued(s: Sem) {
    && s.permits <= USIZE_MAX
    && (s.queue != [] ==> s.permits == 0)
    && Distinct(s.queue)
    && (forall k :: 0 <= k < |s.queue| ==> CanReceive(s, s.queue[k]))
    && (forall k :: 1 <= k < |s.queue| ==> s.futs[s.queue[k]].permits == 0)
  }

  // Moreover, the queue holds exactly the live Waiting futures.
  ghost predicate Inv(s: Sem) {
    && WellQueued(s)
    && (forall id :: 0 <= id < |s.futs| ==> FutOk(s.futs[id], s.closed))
    && (forall id :: id in s.queue <==> Enqueued(s, id))
  }

  // ---------- Handing out permits ----------

  function Front(s: Sem): Fut
    requires WellQueued(s) && s.queue != []
  {
    s.futs[s.queue[0]]
  }

  // The permits that the k-th waiter still misses.
  function Need(s: Sem, k: nat): (n: nat)
    requires WellQueued(s) && k < |s.queue|
    ensures n >= 1
  {
    assert CanReceive(s, s.queue[k]);
    s.futs[s.queue[k]].wants - s.futs[s.queue[k]].permits
  }

  // The front waiter's request is completed: it is dequeued and its waker is called.
  function Grant(s: Sem): (r: Sem)
    requires WellQueued(s) && s.queue != []
    ensures WellQueued(r)
  {
    assert CanReceive(s, s.queue[0]);
    var f := Front(s);
    var r := s.(queue := s.queue[1..],
                futs := s.futs[s.queue[0] := f.(permits := f.wants, state := Woken)],
                wakes := s.wakes + [Wake(s.queue[0], f.waker.value)]);
    assert forall k :: 0 <= k < |r.queue| ==> r.queue[k] == s.queue[k + 1] && CanReceive(s, s.queue[k + 1]);
    r
  }

  // The front waiter takes the last n permits without being completed.  The amount stored is what
  // the program stores: the permits still missing afterwards.
  function GrantPart(s: Sem, n: nat): (r: Sem)
    requires WellQueued(s) && s.queue != [] && 0 < n < Need(s, 0)
    ensures WellQueued(r)
  {
    assert CanReceive(s, s.queue[0]);
    var f := Front(s);
    var r := s.(futs := s.futs[s.queue[0] := f.(permits := Need(s, 0) - n)]);
    assert forall k :: 0 <= k < |r.queue| ==> CanReceive(s, s.queue[k]);
    r
  }

  function AddPermits(s: Sem, n: nat): (r: Sem)
    requires WellQueued(s)
    ensures WellQueued(r)
    decreases |s.queue|
  {
    if n == 0 then s
    else if s.queue == [] then s.(permits := SatAdd(s.permits, n))
    else if Need(s, 0) > n then GrantPart(s, n)
    else AddPermits(Grant(s), n - Need(s, 0))
  }

  lemma GrantKeepsInv(s: Sem)
    requires Inv(s) && s.queue != []
    ensures Inv(Grant(s))
  {
    var g := Grant(s);
    assert Enqueued(s, s.queue[0]) && FutOk(s.futs[s.queue[0]], s.closed);
    assert forall id :: id in s.queue <==> id == s.queue[0] || id in g.queue;
    assert forall id :: Enqueued(g, id) == (id != s.queue[0] && Enqueued(s, id));
  }

  lemma PartKeepsInv(s: Sem, n: nat)
    requires Inv(s) && s.queue != [] && 0 < n < Need(s, 0)
    ensures Inv(GrantPart(s, n))
  {
    assert Enqueued(s, s.queue[0]) && FutOk(s.futs[s.queue[0]], s.closed);
    assert forall id :: Enqueued(GrantPart(s, n), id) == Enqueued(s, id);
  }

  lemma {:induction false} AddKeepsInv(s: Sem, n: nat)
    requires Inv(s)
    ensures var r := AddPermits(s, n); Inv(r) && r.closed == s.closed && |r.futs| == |s.futs|
    decreases |s.queue|
  {
    if n == 0 {
    } else if s.queue == [] {
      assert forall id :: Enqueued(AddPermits(s, n), id) == Enqueued(s, id);
    } else if Need(s, 0) > n {
      PartKeepsInv(s, n);
    } else {
      GrantKeepsInv(s);
      AddKeepsInv(Grant(s), n - Need(s, 0));
    }
  }

  // ---------- The operations ----------

  function RemovePermits(s: Sem, n: nat): Sem {
    s.(permits := if n <= s.permits then s.permits - n else 0)
  }

  function TryAcquire(s: Sem, strict: bool, n: nat): (Sem, Result<nat, TryAcquireError>) {
    if s.closed then (s, Err(Closed))
    else if n > s.permits then
      if strict || s.permits == 0 then (s, Err(NoPermits))
      else (s.(permits := 0), Ok(s.permits))
    else (s.(permits := s.permits - n), Ok(n))
  }

  function BuildAcquire(s: Sem, wants: nat): Sem {
    s.(futs := s.futs + [Fut(wants, Inert, 0, None, false, true)])
  }

  // The future becomes Waiting at the back of the queue.
  function Enqueue(s: Sem, id: nat, permits: nat, cx: Waker): Sem
    requires id < |s.futs|
  {
    s.(queue := s.queue + [id],
       futs := s.futs[id := s.futs[id].(permits := permits, state := Waiting, waker := Some(cx))])
  }

  // The future has returned Ready and keeps `permits` of its own.
  function Resolve(s: Sem, id: nat, permits: nat): Sem
    requires id < |s.futs|
  {
    s.(futs := s.futs[id := s.futs[id].(permits := permits, state := Woken, done := true)])
  }

  function PollAcquire(s: Sem, id: nat, cx: Waker): (Sem, Poll)
    requires id < |s.futs|
  {
    var f := s.futs[id];
    if s.closed then (Resolve(s, id, f.permits), Ready(Err(AcquireError)))
    else
      match f.state
      case Woken => (Resolve(s, id, 0), Ready(Ok(f.permits)))
      case Waiting => (s, Pending)
      case Inert =>
        var (s1, r) := TryAcquire(s, false, f.wants);
        match r
        case Ok(n) => if n == f.wants then (Resolve(s1, id, 0), Ready(Ok(n))) else (Enqueue(s1, id, n, cx), Pending)
        case Err(_) => (Enqueue(s1, id, f.permits, cx), Pending)
  }

  // The future leaves the queue and the set of live futures; its permits are not yet returned.
  function Detach(s: Sem, id: nat): Sem
    requires id < |s.futs|
  {
    s.(queue := if s.futs[id].state.Waiting? then Without(s.queue, id) else s.queue,
       futs := s.futs[id := s.futs[id].(permits := 0, live := false)])
  }

  lemma DetachedQueue(s: Sem, id: nat) returns (k: nat)
    requires Inv(s) && Enqueued(s, id)
    ensures k < |s.queue| && s.queue[k] == id && Detach(s, id).queue == RemoveAt(s.queue, k)
  {
    k := IndexOf(s.queue, id);
    WithoutIsRemoveAt(s.queue, k);
  }

  lemma DetachKeepsInv(s: Sem, id: nat)
    requires Inv(s) && Live(s, id)
    ensures Inv(Detach(s, id))
  {
    var d := Detach(s, id);
    assert forall i :: Enqueued(d, i) == (i != id && Enqueued(s, i));
    if Enqueued(s, id) {
      DetachShortensQueue(s, id);
    }
    forall j | 0 <= j < |d.queue|
      ensures CanReceive(d, d.queue[j])
    {
      assert d.queue[j] in s.queue && CanReceive(s, d.queue[j]);
    }
  }

  lemma DetachShortensQueue(s: Sem, id: nat)
    requires Inv(s) && Enqueued(s, id)
    ensures var q := Detach(s, id).queue;
            && Distinct(q) && id !in q
            && (forall i :: i in q <==> i in s.queue && i != id)
            && (forall j :: 1 <= j < |q| ==> q[j] < |s.futs| && s.futs[q[j]].permits == 0)
  {
    var k := DetachedQueue(s, id);
    RemoveAtFacts(s.queue, k);
  }

  function DropAcquire(s: Sem, id: nat): Sem
    requires Inv(s) && Live(s, id)
  {
    DetachKeepsInv(s, id);
    AddPermits(Detach(s, id), s.futs[id].permits)
  }

  // Every waiter is woken, front first, keeping the permits it has.
  function WakeAll(s: Sem): Sem
    requires Inv(s)
  {
    s.(futs := seq(|s.futs|, i requires 0 <= i < |s.futs| =>
                   if i in s.queue then s.futs[i].(state := Woken) else s.futs[i]),
       wakes := s.wakes + Wakeups(s))
  }

  function Wakeups(s: Sem): seq<Wake>
    requires WellQueued(s)
  {
    seq(|s.queue|, k requires 0 <= k < |s.queue| && CanReceive(s, s.queue[k]) =>
        Wake(s.queue[k], s.futs[s.queue[k]].waker.value))
  }

  function Close(s: Sem): (Sem, nat)
    requires Inv(s)
  {
    (WakeAll(s).(closed := true, queue := []), |s.queue|)
  }
}
