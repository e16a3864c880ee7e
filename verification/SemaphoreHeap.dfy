/** The semaphore of src/semaphore.rs as objects: waiters linked in place through next and prev, the
    shared state, and the loops over the list.  Every method is proved to do to the objects what the
    function of the same name in SemaphoreModel does to the value they represent. */
module SemaphoreHeap {
  import opened Basics
  import opened SemaphoreModel
  import opened SemaphoreSafety
  import opened SemaphoreGrants
  import M = SemaphoreModel

  class Waiter {
    const wants: usize
    var waker: Option<Waker>
    var state: WaiterState
    var permits: usize
    var next: Waiter?
    var prev: Waiter?

    // The number of this future, and whether it has been polled to completion or dropped.
    ghost const id: nat
    ghost var done: bool
    ghost var live: bool

    constructor (wants: usize, ghost id: nat)
      ensures this.wants == wants && this.id == id
      ensures next == null && prev == null
      ensures Value() == Fut(wants, Inert, 0, None, false, true)
    {
      this.wants, waker, state, permits := wants, None, Inert, 0;
      next, prev := null, null;
      this.id, done, live := id, false, true;
    }

    ghost function Value(): Fut
      reads this
    {
      Fut(wants, state, if live then permits else 0, waker, done, live)
    }
  }

  // Following next from head, or prev from tail, visits exactly these nodes.
  ghost predicate Linked(nodes: seq<Waiter>, head: Waiter?, tail: Waiter?)
    reads nodes`next, nodes`prev
  {
    && Distinct(nodes)
    && (nodes == [] ==> head == null && tail == null)
    && (nodes != [] ==>
          && head == nodes[0] && tail == nodes[|nodes| - 1]
          && nodes[0].prev == null && nodes[|nodes| - 1].next == null)
    && (forall i {:trigger nodes[i].next} :: 0 <= i < |nodes| - 1 ==> nodes[i].next == nodes[i + 1])
    && (forall i {:trigger nodes[i].prev} :: 1 <= i < |nodes| ==> nodes[i].prev == nodes[i - 1])
  }

  lemma Neighbours(q: seq<Waiter>, k: nat, head: Waiter?, tail: Waiter?)
    requires Linked(q, head, tail) && k < |q|
    ensures q[k].prev == if k == 0 then null else q[k - 1]
    ensures q[k].next == if k == |q| - 1 then null else q[k + 1]
    ensures k > 0 ==> q[k - 1] != q[k]
    ensures k < |q| - 1 ==> q[k + 1] != q[k]
    ensures head == q[0] && tail == q[|q| - 1]
  {
  }

  // Bypassing the k-th node in both directions leaves a linked list without it.
  lemma BypassedIsLinked(q: seq<Waiter>, k: nat, head: Waiter?, tail: Waiter?)
    requires Distinct(q) && k < |q|
    requires forall i {:trigger q[i].next} :: 0 <= i < |q| && i != k - 1 ==>
             q[i].next == if i == |q| - 1 then null else q[i + 1]
    requires forall i {:trigger q[i].prev} :: 0 <= i < |q| && i != k + 1 ==>
             q[i].prev == if i == 0 then null else q[i - 1]
    requires if k == 0 then head == q[k].next else head == q[0] && q[k - 1].next == q[k].next
    requires if k == |q| - 1 then tail == q[k].prev else tail == q[|q| - 1] && q[k + 1].prev == q[k].prev
    ensures Linked(RemoveAt(q, k), head, tail)
  {
    RemoveAtFacts(q, k);
    hide RemoveAt, Distinct;
    var r := RemoveAt(q, k);
    forall i | 0 <= i < |r| - 1
      ensures r[i].next == r[i + 1]
    {
    }
    forall i | 1 <= i < |r|
      ensures r[i].prev == r[i - 1]
    {
    }
  }

  // The intrusive doubly linked list.
  class WaiterQueue {
    var head: Waiter?
    var tail: Waiter?
    ghost var nodes: seq<Waiter>

    // The pointers represent `nodes`; no waiter occurs twice.
    ghost predicate Valid()
      reads this, nodes`next, nodes`prev
    {
      Linked(nodes, head, tail)
    }

    constructor ()
      ensures Valid() && nodes == []
    {
      head, tail, nodes := null, null, [];
    }

    function FrontWaiter(): (w: Waiter?)
      reads this, nodes`next, nodes`prev
      requires Valid()
      ensures w == if nodes == [] then null else nodes[0]
    {
      head
    }

    method Len() returns (waiting: nat)
      requires Valid()
      ensures waiting == |nodes|
    {
      var curr := head;
      waiting := 0;
      while curr != null
        invariant waiting <= |nodes|
        invariant curr == if waiting < |nodes| then nodes[waiting] else null
        decreases |nodes| - waiting
      {
        curr := curr.next;
        waiting := waiting + 1;
      }
    }

    // The links of a waiter that has never been enqueued are null, which is what makes the push
    // onto an empty queue correct without touching them.
    method PushBack(waiter: Waiter)
      requires Valid() && waiter !in nodes
      requires waiter.next == null && waiter.prev == null
      modifies this, nodes`next, waiter`prev
      ensures Valid() && nodes == old(nodes) + [waiter]
    {
      if tail == null {
        head := waiter;
        tail := waiter;
      } else {
        tail.next := waiter;
        waiter.prev := tail;
        tail := waiter;
      }
      nodes := nodes + [waiter];
    }

    method TryRemove(waiter: Waiter)
      requires Valid() && waiter in nodes
      modifies this, nodes`next, nodes`prev
      ensures Valid() && nodes == Without(old(nodes), waiter)
      ensures waiter.next == old(waiter.next) && waiter.prev == old(waiter.prev)
    {
      hide Without, RemoveAt, Linked, Distinct;
      ghost var k := IndexOf(nodes, waiter);
      Neighbours(nodes, k, head, tail);
      var prev := waiter.prev;
      if prev == null {
        head := waiter.next;
      } else {
        prev.next := waiter.next;
      }
      var next := waiter.next;
      if next == null {
        tail := waiter.prev;
      } else {
        next.prev := waiter.prev;
      }
      UnlinkedIsLinked(k);
      nodes := Without<Waiter>(nodes, waiter);
    }

    // After the k-th node has been bypassed in both directions, the pointers represent the others.
    twostate lemma UnlinkedIsLinked(k: nat)
      requires old(Valid()) && nodes == old(nodes) && k < |nodes|
      requires forall w :: w in nodes && (k == 0 || w != nodes[k - 1]) ==> w.next == old(w.next)
      requires forall w :: w in nodes && (k == |nodes| - 1 || w != nodes[k + 1]) ==> w.prev == old(w.prev)
      requires k == 0 ==> head == nodes[k].next
      requires k > 0 ==> head == nodes[0] && nodes[k - 1].next == nodes[k].next
      requires k == |nodes| - 1 ==> tail == nodes[k].prev
      requires k < |nodes| - 1 ==> tail == nodes[|nodes| - 1] && nodes[k + 1].prev == nodes[k].prev
      ensures Linked(Without(nodes, nodes[k]), head, tail)
    {
      var q := nodes;
      assert forall i {:trigger q[i].next} :: 0 <= i < |q| && i != k - 1 ==> q[i].next == old(q[i].next);
      assert forall i {:trigger q[i].prev} :: 0 <= i < |q| && i != k + 1 ==> q[i].prev == old(q[i].prev);
      WithoutIsRemoveAt(q, k);
      hide Without, RemoveAt;
      BypassedIsLinked(q, k, head, tail);
    }

    method PopFront(front: Waiter)
      requires Valid() && nodes != [] && front == nodes[0]
      modifies this, nodes`prev
      ensures Valid() && nodes == old(nodes)[1..]
    {
      head := front.next;
      if head == null {
        tail := null;
      } else {
        head.prev := null;
      }
      nodes := nodes[1..];
    }

    // Sets every queued waiter to Woken and calls its waker, front first.
    method WakeAll() returns (woken: nat, ghost calls: seq<Wake>)
      requires Valid() && forall w :: w in nodes ==> w.waker.Some?
      modifies nodes`state
      ensures woken == |nodes| && |calls| == |nodes|
      ensures forall i :: 0 <= i < |nodes| ==> nodes[i].state == Woken
      ensures forall i :: 0 <= i < |nodes| ==>
              nodes[i].waker.Some? && calls[i] == Wake(nodes[i].id, nodes[i].waker.value)
    {
      var curr := head;
      woken, calls := 0, [];
      while curr != null
        invariant woken <= |nodes| && |calls| == woken
        invariant curr == if woken < |nodes| then nodes[woken] else null
        invariant forall i :: 0 <= i < woken ==> nodes[i].state == Woken
        invariant forall i :: 0 <= i < woken ==>
                  nodes[i].waker.Some? && calls[i] == Wake(nodes[i].id, nodes[i].waker.value)
        decreases |nodes| - woken
      {
        curr.state := Woken;
        calls := calls + [Wake(curr.id, curr.waker.value)];
        curr := curr.next;
        woken := woken + 1;
      }
    }

    // Overwrites the list by an empty one.
    method Reset()
      modifies this
      ensures Valid() && nodes == []
    {
      head, tail, nodes := null, null, [];
    }
  }

  class Semaphore {
    const waiters: WaiterQueue
    var permits: usize
    var closed: bool

    // Every future built so far, in order, and every waker call made so far.
    ghost var registry: seq<Waiter>
    ghost var wakes: seq<Wake>

    ghost function Repr(): set<object>
      reads this
    {
      {this, waiters} + set w | w in registry :: w as object
    }

    // The value that the objects represent.
    ghost function View(): Sem
      reads this, waiters, registry
    {
      Sem(permits, closed, Ids(waiters.nodes), Values(registry), wakes)
    }

    ghost predicate Valid()
      reads this, waiters, waiters.nodes, registry
    {
      && waiters.Valid()
      && Registered(registry, waiters.nodes)
      && FreshLinks(registry)
      && Inv(View())
    }

    constructor (permits: usize)
      ensures Valid() && fresh(waiters) && registry == []
      ensures View() == NewSemaphore(permits)
    {
      waiters := new WaiterQueue();
      this.permits, closed := permits, false;
      registry, wakes := [], [];
    }

    // A queued waiter is the future of its number, and it is live and Waiting.
    lemma QueuedWaiter(k: nat)
      requires Valid() && k < |waiters.nodes|
      ensures var w := waiters.nodes[k];
              && w in registry && w.id < |registry| && registry[w.id] == w && View().queue[k] == w.id
              && View().futs[w.id] == w.Value()
              && Need(View(), k) == w.wants - w.permits
              && w.live && w.state == Waiting && w.permits < w.wants && w.waker.Some? && !w.done
    {
      var w := waiters.nodes[k];
      assert w in waiters.nodes;
      assert View().queue[k] == w.id;
      assert Enqueued(View(), w.id) && CanReceive(View(), w.id) && FutOk(View().futs[w.id], closed);
    }

    // If only waiter w has changed, only its entry in the represented value has.
    twostate lemma OnlyChanged(w: Waiter)
      requires old(Registered(registry, waiters.nodes)) && registry == old(registry) && w in registry
               && w.id < |registry| && registry[w.id] == w
      requires forall x :: x in registry && x != w ==> x.Value() == old(x.Value())
      ensures Values(registry) == old(Values(registry))[w.id := w.Value()]
    {
    }

    twostate lemma LinksStayFresh()
      requires old(FreshLinks(registry)) && registry == old(registry)
      requires forall w :: w in registry && w.state.Inert? ==>
               old(w.state).Inert? && w.next == old(w.next) && w.prev == old(w.prev)
      ensures FreshLinks(registry)
    {
    }

    lemma QueuedWaiters()
      requires Valid()
      ensures forall w :: w in waiters.nodes ==>
              w in registry && w in Repr() && w.state == Waiting && w.live && w.waker.Some?
    {
      forall w | w in waiters.nodes
        ensures w in registry && w.state == Waiting && w.live && w.waker.Some?
      {
        var k := IndexOf(waiters.nodes, w);
        QueuedWaiter(k);
      }
    }

    // The body of the add_permits loop, branch by branch: the front waiter is completed, ...
    method CompleteFront(front: Waiter)
      requires Valid() && waiters.nodes != [] && front == waiters.nodes[0]
      modifies Repr()
      ensures Valid() && registry == old(registry) && Repr() == old(Repr())
      ensures View() == Grant(old(View()))
    {
      hide WellQueued, Linked, FutOk, Inv, Registered, FreshLinks, Values, Ids, Distinct, Need, Front;
      QueuedWaiter(0);
      QueuedWaiters();
      QueueView();
      FrontIs();
      GrantKeepsInv(View());
      RegisteredTail(registry, waiters.nodes);
      front.permits := front.wants;
      front.state := Woken;
      wakes := wakes + [Wake(front.id, front.waker.value)];
      waiters.PopFront(front);
      OnlyChanged(front);
      LinksStayFresh();
    }

    // ... or is given the last n permits without being completed.
    method GivePart(front: Waiter, n: usize)
      requires Valid() && waiters.nodes != [] && front == waiters.nodes[0]
      requires 0 < n < Need(View(), 0)
      modifies front`permits
      ensures Valid() && View() == GrantPart(old(View()), n)
    {
      hide WellQueued, Linked, FutOk, Inv;
      QueuedWaiter(0);
      var diff := front.wants - front.permits;
      front.permits := diff - n;
      assert Values(registry) == old(View()).futs[front.id := front.Value()];
      PartKeepsInv(old(View()), n);
    }

    // Without waiters the permits go to the pool.
    method FillPool(n: usize)
      requires Valid() && waiters.nodes == []
      modifies this`permits
      ensures Valid() && View() == M.AddPermits(old(View()), n)
    {
      assert View().queue == [];
      AddKeepsInv(View(), n);
      AddToPool(View(), n);
      hide Inv, WellQueued, Linked;
      permits := if permits + n <= USIZE_MAX then permits + n else USIZE_MAX;
    }

    lemma FrontIs()
      requires Valid() && waiters.nodes != []
      ensures WellQueued(View()) && View().queue != [] && Front(View()) == waiters.nodes[0].Value()
    {
      QueuedWaiter(0);
    }

    // What the loop below needs to know about the objects.
    lemma QueueView()
      requires Valid()
      ensures WellQueued(View()) && waiters.Valid() && waiters in Repr() && this in Repr()
      ensures waiters.nodes == [] <==> View().queue == []
      ensures waiters.nodes != [] ==>
                var w := waiters.nodes[0];
                w in Repr() && w.permits < w.wants && Need(View(), 0) == w.wants - w.permits
    {
      if waiters.nodes != [] {
        QueuedWaiter(0);
      }
    }

    method AddPermits(n: usize)
      requires Valid()
      modifies Repr()
      ensures Valid() && registry == old(registry)
      ensures View() == M.AddPermits(old(View()), n)
    {
      hide Valid, View, WellQueued, Grant, GrantPart, M.AddPermits, Need, Linked, Front, Repr;
      QueueView();
      var m: usize := n;
      while m > 0
        invariant Valid() && registry == old(registry) && Repr() == old(Repr())
        invariant WellQueued(View())
        invariant M.AddPermits(View(), m) == M.AddPermits(old(View()), n)
        decreases m
      {
        QueueView();
        var front := waiters.FrontWaiter();
        if front != null {
          var diff := front.wants - front.permits;
          if diff > m {
            AddGrantsPart(View(), m);
            GivePart(front, m);
            return;
          } else {
            AddGrants(View(), m);
            CompleteFront(front);
            m := m - diff;
            QueueView();
          }
        } else {
          FillPool(m);
          return;
        }
      }
      AddNothing(View());
    }

    method RemovePermits(n: usize)
      requires Valid()
      modifies this`permits
      ensures Valid() && View() == M.RemovePermits(old(View()), n)
    {
      RemoveKeepsInv(View(), n);
      permits := if n <= permits then permits - n else 0;
    }

    // Shared by the immediate and the awaited acquisition; only the latter (strict == false) takes
    // a part of what it wants.
    method TryAcquire(strict: bool, n: usize) returns (r: Result<usize, TryAcquireError>)
      requires Valid()
      modifies this`permits
      ensures Valid()
      ensures View() == M.TryAcquire(old(View()), strict, n).0
      ensures r == M.TryAcquire(old(View()), strict, n).1
    {
      TryAcquireKeepsInv(View(), strict, n);
      if closed {
        return Err(Closed);
      }
      if n > permits {
        if strict || permits == 0 {
          return Err(NoPermits);
        }
        var count := permits;
        permits := 0;
        r := Ok(count);
      } else {
        permits := permits - n;
        r := Ok(n);
      }
    }

    method BuildAcquire(wants: usize) returns (waiter: Waiter)
      requires Valid()
      modifies this`registry
      ensures Valid() && fresh(waiter) && registry == old(registry) + [waiter] && waiter.id == |old(registry)|
      ensures View() == M.BuildAcquire(old(View()), wants)
    {
      BuildKeepsInv(View(), wants);
      waiter := new Waiter(wants, |registry|);
      registry := registry + [waiter];
      assert Values(registry) == old(Values(registry)) + [waiter.Value()];
      assert View() == M.BuildAcquire(old(View()), wants);
    }

    // What a future of this semaphore that has not been dropped looks like.
    ghost predicate Owns(waiter: Waiter)
      reads this, waiter
    {
      waiter in registry && waiter.id < |registry| && registry[waiter.id] == waiter && waiter.live
    }

    lemma OwnedIsLive(waiter: Waiter)
      requires Valid() && Owns(waiter)
      ensures Live(View(), waiter.id) && View().futs[waiter.id] == waiter.Value()
      ensures waiter in waiters.nodes <==> waiter.state == Waiting
      ensures waiter.state == Inert ==> waiter.next == null && waiter.prev == null && waiter.permits == 0
    {
      var s := View();
      assert FutOk(s.futs[waiter.id], s.closed);
      if waiter in waiters.nodes {
        QueuedWaiters();
      }
      if waiter.state == Waiting {
        assert Enqueued(s, waiter.id) && waiter.id in s.queue;
        var k := IndexOf(s.queue, waiter.id);
        assert waiters.nodes[k] in waiters.nodes;
      }
    }

    lemma QueuedIsPending(waiter: Waiter)
      requires Valid() && Owns(waiter) && Enqueued(View(), waiter.id)
      ensures !waiter.done
    {
      OwnedIsLive(waiter);
      assert FutOk(View().futs[waiter.id], closed);
    }

    // The waiter has received `got` permits and joins the queue for the rest.
    method EnqueueWaiter(waiter: Waiter, got: usize, cx: Waker)
      requires Valid() && Owns(waiter) && waiter.state == Inert
      requires !closed && permits == 0 && got < waiter.wants && (waiters.nodes == [] || got == 0)
      modifies Repr()
      ensures Valid() && registry == old(registry) && Owns(waiter)
      ensures View() == M.Enqueue(old(View()), waiter.id, got, cx)
    {
      ghost var s := View();
      OwnedIsLive(waiter);
      QueuedWaiters();
      EnqueueKeepsInv(s, waiter.id, got, cx);
      RegisteredSnoc(registry, waiters.nodes, waiter);
      hide Inv, WellQueued, Linked, FutOk, Registered, FreshLinks, Values, Ids;
      waiter.permits := got;
      waiter.state := WaiterState.Waiting;
      waiter.waker := Some(cx);
      waiters.PushBack(waiter);
      OnlyChanged(waiter);
      LinksStayFresh();
    }

    // The first poll of an Acquire future.
    method PollAcquireInitial(waiter: Waiter, cx: Waker) returns (r: Poll)
      requires Valid() && Owns(waiter) && waiter.state == Inert
      modifies Repr()
      ensures Valid() && registry == old(registry) && Owns(waiter)
      ensures View() == M.PollAcquire(old(View()), waiter.id, cx).0
      ensures r == M.PollAcquire(old(View()), waiter.id, cx).1
    {
      ghost var s := View();
      OwnedIsLive(waiter);
      QueuedWaiters();
      PollKeepsInv(s, waiter.id, cx);
      hide Inv, WellQueued, Linked, FutOk;
      var t := TryAcquire(false, waiter.wants);
      if t.Ok? && t.value == waiter.wants {
        waiter.state := Woken;
        waiter.done := true;
        assert Values(registry) == s.futs[waiter.id := waiter.Value()];
        return Ready(Ok(t.value));
      }
      if t == Err(Closed) {
        waiter.state := Woken;
        waiter.done := true;
        assert Values(registry) == s.futs[waiter.id := waiter.Value()];
        return Ready(Err(AcquireError));
      }
      EnqueueWaiter(waiter, if t.Ok? then t.value else waiter.permits, cx);
      return Pending;
    }

    // Polling an Acquire future.
    method PollAcquire(waiter: Waiter, cx: Waker) returns (r: Poll)
      requires Valid() && Owns(waiter)
      modifies Repr()
      ensures Valid() && registry == old(registry) && Owns(waiter)
      ensures View() == M.PollAcquire(old(View()), waiter.id, cx).0
      ensures r == M.PollAcquire(old(View()), waiter.id, cx).1
    {
      ghost var s := View();
      OwnedIsLive(waiter);
      PollKeepsInv(s, waiter.id, cx);
      hide Inv, WellQueued, Linked, FutOk;
      if closed {
        waiter.state := Woken;
        waiter.done := true;
        assert Values(registry) == s.futs[waiter.id := waiter.Value()];
        return Ready(Err(AcquireError));
      }
      match waiter.state
      case Woken =>
        var count := waiter.permits;
        waiter.permits := 0;
        waiter.done := true;
        assert Values(registry) == s.futs[waiter.id := waiter.Value()];
        return Ready(Ok(count));
      case Waiting =>
        return Pending;
      case Inert =>
        r := PollAcquireInitial(waiter, cx);
    }

    // The first half of dropping an Acquire future: it leaves the queue and is gone, but has not
    // yet returned its permits.
    method RemoveFuture(waiter: Waiter)
      requires Valid() && Owns(waiter)
      modifies Repr()
      ensures Valid() && registry == old(registry) && waiter.permits == old(waiter.permits)
      ensures View() == M.Detach(old(View()), waiter.id)
    {
      hide Inv, WellQueued, Linked, FutOk, Registered, FreshLinks, Values, Ids, Without, Distinct;
      OwnedIsLive(waiter);
      QueuedWaiters();
      DetachKeepsInv(View(), waiter.id);
      if waiter.state == Waiting {
        NodesDistinct();
        RegisteredWithout(registry, waiters.nodes, waiter);
        waiters.TryRemove(waiter);
      }
      waiter.live := false;
      OnlyChanged(waiter);
      LinksStayFresh();
    }

    lemma NodesDistinct()
      requires Valid()
      ensures Distinct(waiters.nodes)
    {
    }

    // Dropping an Acquire future.
    method DropAcquire(waiter: Waiter)
      requires Valid() && Owns(waiter)
      modifies Repr()
      ensures Valid() && registry == old(registry)
      ensures View() == M.DropAcquire(old(View()), waiter.id)
    {
      OwnedIsLive(waiter);
      hide Inv, WellQueued, Linked, FutOk, Registered, FreshLinks, Values, Ids, Without, M.Detach;
      RemoveFuture(waiter);
      AddPermits(waiter.permits);
    }

    // All queued waiters, and only those, have become Woken.
    twostate lemma AllWoken(calls: seq<Wake>)
      requires old(Valid()) && registry == old(registry) && waiters.nodes == old(waiters.nodes)
      requires forall w :: w in waiters.nodes ==> w.Value() == old(w.Value()).(state := Woken)
      requires forall w :: w in registry && w !in waiters.nodes ==> w.Value() == old(w.Value())
      requires |calls| == |waiters.nodes|
      requires forall i :: 0 <= i < |calls| ==>
               waiters.nodes[i].waker == Some(calls[i].waker) && calls[i].fut == waiters.nodes[i].id
      ensures Values(registry) == M.WakeAll(old(View())).futs
      ensures calls == Wakeups(old(View()))
    {
      var s, q := old(View()), waiters.nodes;
      forall i | 0 <= i < |registry|
        ensures i in s.queue <==> registry[i] in q
      {
        if i in s.queue {
          var k := IndexOf(s.queue, i);
          assert q[k] in q;
        }
        if registry[i] in q {
          var k := IndexOf(q, registry[i]);
          assert s.queue[k] == i;
        }
      }
      forall i | 0 <= i < |q|
        ensures calls[i] == Wakeups(s)[i]
      {
        assert q[i] in q && s.queue[i] == q[i].id && CanReceive(s, s.queue[i]);
      }
    }

    // Wakes every waiter and empties the queue; reports how many there were.
    method Close() returns (woken: nat)
      requires Valid()
      modifies Repr()
      ensures Valid() && registry == old(registry)
      ensures (View(), woken) == M.Close(old(View()))
    {
      hide Inv, WellQueued, Linked, FutOk, Registered, FreshLinks, Values, Ids;
      QueuedWaiters();
      CloseKeepsInv(View());
      ghost var calls;
      woken, calls := waiters.WakeAll();
      AllWoken(calls);
      LinksStayFresh();
      closed := true;
      wakes := wakes + calls;
      RegisteredNothing();
      waiters.Reset();
    }

    lemma RegisteredNothing()
      requires Registered(registry, waiters.nodes)
      ensures Registered(registry, []) && Ids([]) == []
      ensures |Ids(waiters.nodes)| == |waiters.nodes|
    {
    }

    method Waiters() returns (n: nat)
      requires Valid()
      ensures n == |View().queue|
    {
      n := waiters.Len();
    }
  }

  ghost function Ids(nodes: seq<Waiter>): seq<nat> {
    seq(|nodes|, i requires 0 <= i < |nodes| => nodes[i].id)
  }

  ghost function Values(ws: seq<Waiter>): seq<Fut>
    reads ws
  {
    seq(|ws|, i requires 0 <= i < |ws| reads ws => ws[i].Value())
  }

  // A waiter that has never been enqueued has no links.
  ghost predicate FreshLinks(registry: seq<Waiter>)
    reads registry`state, registry`next, registry`prev
  {
    forall w :: w in registry && w.state.Inert? ==> w.next == null && w.prev == null
  }

  lemma RegisteredTail(registry: seq<Waiter>, nodes: seq<Waiter>)
    requires Registered(registry, nodes) && nodes != []
    ensures Registered(registry, nodes[1..]) && Ids(nodes[1..]) == Ids(nodes)[1..]
  {
  }

  lemma RegisteredSnoc(registry: seq<Waiter>, nodes: seq<Waiter>, w: Waiter)
    requires Registered(registry, nodes) && w in registry && w.id < |registry| && registry[w.id] == w
    ensures Registered(registry, nodes + [w]) && Ids(nodes + [w]) == Ids(nodes) + [w.id]
  {
  }

  lemma RegisteredWithout(registry: seq<Waiter>, nodes: seq<Waiter>, w: Waiter)
    requires Registered(registry, nodes) && Distinct(nodes) && w in nodes
    ensures Registered(registry, Without(nodes, w)) && Ids(Without(nodes, w)) == Without(Ids(nodes), w.id)
  {
    DistinctIds(registry, nodes);
    var k := IndexOf(nodes, w);
    WithoutIsRemoveAt(nodes, k);
    WithoutIsRemoveAt(Ids(nodes), k);
    RemoveAtFacts(nodes, k);
    IdsAfterRemoval(nodes, k);
    hide Without, RemoveAt, Distinct, Ids;
  }

  lemma DistinctIds(registry: seq<Waiter>, nodes: seq<Waiter>)
    requires Registered(registry, nodes) && Distinct(nodes)
    ensures Distinct(Ids(nodes))
  {
    assert forall i :: 0 <= i < |nodes| ==> nodes[i] in nodes;
  }

  lemma IdsAfterRemoval(nodes: seq<Waiter>, k: nat)
    requires k < |nodes|
    ensures Ids(RemoveAt(nodes, k)) == RemoveAt(Ids(nodes), k)
  {
  }

  // Futures are numbered by their position, and every queued waiter is one of them.
  ghost predicate Registered(registry: seq<Waiter>, nodes: seq<Waiter>) {
    && (forall i :: 0 <= i < |registry| ==> registry[i].id == i)
    && (forall w :: w in nodes ==> w in registry && w.id < |registry| && registry[w.id] == w)
  }
}
