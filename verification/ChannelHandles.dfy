/** The handles and permits of src/bounded.rs as objects: who gives which unit back, and in which
    order.  Dropping a handle is a call of its method Drop. */
module ChannelHandles {
  import opened Basics
  import opened MaskModel
  import opened ChannelModel
  import opened ChannelSlots
  import opened ChannelHeap

  class Channel<T> {
    const queue: Queue<T>

    // A capacity of zero is the caller's error: the program panics.
    constructor New(capacity: usize)
      requires capacity > 0
      ensures queue.Valid() && fresh(queue.Repr())
      ensures Some(queue.View()) == NewChannel(capacity)
    {
      queue := new Queue<T>.Init([], capacity);
    }

    constructor FromIter(capacity: usize, elems: seq<T>)
      requires |elems| <= USIZE_MAX
      ensures queue.Valid() && fresh(queue.Repr())
      ensures queue.View() == ChannelFrom(capacity, elems)
    {
      queue := new Queue<T>.Init(elems, if |elems| <= capacity then capacity else |elems|);
    }

    // The first two handles of a split channel; None if the program panics.
    method Split() returns (r: Option<(Sender<T>, Receiver<T>)>)
      requires queue.Valid() && NoLiveFuture(queue.View().sem) && queue.reserved == 0 && queue.mask.bits < 2
      modifies queue.Repr()
      ensures queue.semaphore.Valid() && queue.Repr() == old(queue.Repr())
      ensures queue.maxCapacity + |queue.elems| <= USIZE_MAX ==> queue.Valid()
      ensures r.Some? ==> r.value.0.queue == queue && r.value.1.queue == queue
      ensures (if r.Some? then Some(queue.View()) else None) == SetCounted(old(queue.View()))
    {
      var ok := queue.SetCounted();
      if !ok {
        return None;
      }
      var tx := new Sender<T>(queue);
      var rx := new Receiver<T>(queue);
      return Some((tx, rx));
    }
  }

  class Sender<T> {
    const queue: Queue<T>

    constructor (queue: Queue<T>)
      ensures this.queue == queue
    {
      this.queue := queue;
    }

    // None is the panic when the count of senders overflows.
    method Clone() returns (r: Option<Sender<T>>)
      requires queue.Valid()
      modifies queue.mask
      ensures queue.Valid() && (r.Some? ==> r.value.queue == queue)
      ensures if r.Some? then
                IncreaseSenders(old(queue.View()).mask) == Some(queue.View().mask)
                && queue.View() == old(queue.View()).(mask := queue.View().mask)
              else
                IncreaseSenders(old(queue.View()).mask) == None && queue.View() == old(queue.View())
    {
      var ok := queue.mask.IncreaseSenderCount();
      if !ok {
        return None;
      }
      var tx := new Sender<T>(queue);
      return Some(tx);
    }

    method Drop()
      requires queue.Valid() && queue.mask.bits >= 2
      modifies queue`waker, queue`calls, queue.mask
      ensures queue.Valid() && queue.View() == DropSenderCount(old(queue.View()))
    {
      queue.DecreaseSenderCount();
    }

    // On success the sender lives on inside the permit; otherwise it is handed back.
    method TryReserveOwned() returns (r: Result<OwnedPermit<T>, TrySendError<Sender<T>>>)
      requires queue.Valid()
      modifies queue.Repr()
      ensures queue.Valid() && queue.Repr() == old(queue.Repr())
      ensures r.Ok? ==> fresh(r.value) && r.value.sender == Some(this)
      ensures var (c, s) := TryReserve(old(queue.View()));
              && queue.View() == c
              && (r.Ok? <==> s.Ok?)
      ensures r.Ok? <==> !old(queue.semaphore.closed) && old(queue.semaphore.permits) > 0
      ensures r.Err? ==> r.error == if old(queue.semaphore.closed) then SendClosed(this) else SendFull(this)
    {
      var t := queue.TryReserve();
      if t.Err? {
        return Err(if t.error.SendClosed? then SendClosed(this) else SendFull(this));
      }
      var permit := new OwnedPermit<T>(this);
      return Ok(permit);
    }
  }

  class Receiver<T> {
    const queue: Queue<T>

    constructor (queue: Queue<T>)
      ensures this.queue == queue
    {
      this.queue := queue;
    }

    method Close()
      requires queue.Valid()
      modifies queue.Repr()
      ensures queue.Valid() && queue.Repr() == old(queue.Repr())
      ensures queue.View() == CloseChannel(old(queue.View()), true)
    {
      queue.Close(true);
    }

    // A dropped receiver closes the channel.
    method Drop()
      requires queue.Valid()
      modifies queue.Repr()
      ensures queue.Valid() && queue.Repr() == old(queue.Repr())
      ensures queue.View() == CloseChannel(old(queue.View()), true)
    {
      queue.Close(true);
    }
  }

  class Permit<T> {
    const queue: Queue<T>

    constructor (queue: Queue<T>)
      ensures this.queue == queue
    {
      this.queue := queue;
    }

    // The permit is forgotten afterwards, not dropped.
    method Send(v: T)
      requires queue.Valid() && queue.reserved > 0
      modifies queue.Repr()
      ensures queue.Valid() && queue.Repr() == old(queue.Repr())
      ensures queue.View() == SendReserved(old(queue.View()), v)
    {
      queue.SendReserved(v);
    }

    method Drop()
      requires queue.Valid() && queue.reserved > 0
      modifies queue.Repr()
      ensures queue.Valid() && queue.Repr() == old(queue.Repr())
      ensures queue.View() == Unreserve(old(queue.View()), false)
    {
      queue.ReleaseReservation();
    }
  }

  class OwnedPermit<T> {
    var sender: Option<Sender<T>>

    constructor (sender: Sender<T>)
      ensures this.sender == Some(sender)
    {
      this.sender := Some(sender);
    }

    // Hands the sender back; what is left of the permit has nothing to drop.
    method Send(v: T) returns (tx: Sender<T>)
      requires sender.Some? && sender.value.queue.Valid() && sender.value.queue.reserved > 0
      modifies this, sender.value.queue.Repr()
      ensures sender.None? && tx == old(sender.value)
      ensures tx.queue.Valid() && tx.queue.Repr() == old(tx.queue.Repr())
      ensures tx.queue.View() == SendReserved(old(tx.queue.View()), v)
    {
      tx := sender.value;
      sender := None;
      tx.queue.SendReserved(v);
    }

    // The unit goes back before the sender does: a waiting sender is served first, and only then can
    // the receiver learn that the last sender is gone.
    method Drop()
      requires sender.Some? ==>
                 var q := sender.value.queue; q.Valid() && q.reserved > 0 && q.mask.bits >= 2
      modifies this, if sender.Some? then sender.value.queue.Repr() else {}
      ensures sender.None?
      ensures old(sender.Some?) ==>
                var q := old(sender.value.queue);
                q.Valid() && q.View() == DropSenderCount(Unreserve(old(sender.value.queue.View()), false))
    {
      hide Queue.Valid, Queue.View, DropSenderCount, Unreserve;
      if sender.Some? {
        var tx := sender.value;
        sender := None;
        tx.queue.ReleaseReservation();
        tx.Drop();
      }
    }
  }
}
