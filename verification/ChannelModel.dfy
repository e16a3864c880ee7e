/** The bounded queue of src/queue.rs as a value, and what each of its operations does to it. */
module ChannelModel {
  import opened Basics
  import opened SemaphoreModel
  import opened MaskModel
  import Safety = SemaphoreSafety

  // `waker` is the receiver's registered waker and `calls` the log of all calls made to such wakers.
  datatype Chan<T> = Chan(
    sem: Sem,
    elems: seq<T>,
    maxCapacity: nat,
    reserved: nat,
    mask: nat,
    waker: Option<Waker>,
    calls: seq<Waker>)

  datatype TrySendError<T> = SendClosed(value: T) | SendFull(value: T)

  datatype TryRecvError = Empty | Disconnected

  // The outcome of polling the Acquire future inside a send or reserve.
  datatype Slot = Waits | Granted | Refused

  datatype RecvPoll<T> = RecvPending | Received(value: T) | Finished

  // None is the panic on a capacity of zero.
  function NewChannel<T>(capacity: usize): Option<Chan<T>> {
    if capacity > 0 then Some(Chan(NewSemaphore(capacity), [], capacity, 0, 0, None, [])) else None
  }

  // The capacity is at least the number of initial elements, and may be zero.
  function ChannelFrom<T>(capacity: usize, elems: seq<T>): Chan<T> {
    var c := if |elems| <= capacity then capacity else |elems|;
    Chan(NewSemaphore(c - |elems|), elems, c, 0, 0, None, [])
  }

  // The element is queued and the receiver's waker, if any, is called but kept.
  function PushAndWake<T>(c: Chan<T>, v: T): Chan<T> {
    c.(elems := c.elems + [v],
       calls := if c.waker.Some? then c.calls + [c.waker.value] else c.calls)
  }

  function TrySend<T>(c: Chan<T>, v: T): (Chan<T>, Result<(), TrySendError<T>>) {
    var (s, r) := TryAcquire(c.sem, true, 1);
    match r
    case Ok(_) => (PushAndWake(c.(sem := s), v), Ok(()))
    case Err(Closed) => (c.(sem := s), Err(SendClosed(v)))
    case Err(NoPermits) => (c.(sem := s), Err(SendFull(v)))
  }

  function TryReserve<T>(c: Chan<T>): (Chan<T>, Result<(), TrySendError<()>>) {
    var (s, r) := TryAcquire(c.sem, true, 1);
    match r
    case Ok(_) => (c.(sem := s, reserved := c.reserved + 1), Ok(()))
    case Err(Closed) => (c.(sem := s), Err(SendClosed(())))
    case Err(NoPermits) => (c.(sem := s), Err(SendFull(())))
  }

  // A poll of the Acquire future `id` inside a send or reserve.  When it is ready, the future is
  // dropped; a permit it resolved to is forgotten, so that the slot is taken.
  function PollSlot<T>(c: Chan<T>, id: nat, cx: Waker): (Chan<T>, Slot)
    requires Inv(c.sem) && Live(c.sem, id)
  {
    PollStaysLive(c.sem, id, cx);
    var (s, p) := PollAcquire(c.sem, id, cx);
    if p.Pending? then (c.(sem := s), Waits)
    else (c.(sem := DropAcquire(s, id)), if p.result.Ok? then Granted else Refused)
  }

  // The Acquire future of a send or reserve, built when the send is first polled.
  function StartSlot<T>(c: Chan<T>, slot: Option<nat>): (Chan<T>, nat) {
    if slot.Some? then (c, slot.value) else (c.(sem := BuildAcquire(c.sem, 1)), |c.sem.futs|)
  }

  lemma StartIsLive<T>(c: Chan<T>, slot: Option<nat>)
    requires Inv(c.sem) && (slot.Some? ==> Live(c.sem, slot.value))
    ensures var (c', id) := StartSlot(c, slot); Inv(c'.sem) && Live(c'.sem, id)
  {
    Safety.BuildKeepsInv(c.sem, 1);
  }

  // One poll of a send or a reserve, up to the point where it has a unit.
  function AwaitSlot<T>(c: Chan<T>, slot: Option<nat>, cx: Waker): (Chan<T>, Slot)
    requires Inv(c.sem) && (slot.Some? ==> Live(c.sem, slot.value))
  {
    StartIsLive(c, slot);
    var (c', id) := StartSlot(c, slot);
    PollSlot(c', id, cx)
  }

  lemma PollStaysLive(s: Sem, id: nat, cx: Waker)
    requires Inv(s) && Live(s, id)
    ensures Inv(PollAcquire(s, id, cx).0) && Live(PollAcquire(s, id, cx).0, id)
  {
    Safety.PollKeepsInv(s, id, cx);
  }

  function Reserved<T>(c: Chan<T>): Chan<T> {
    c.(reserved := c.reserved + 1)
  }

  // A reservation ends, either because its element has been sent or because it is given back.
  function Unreserve<T>(c: Chan<T>, consumed: bool): Chan<T>
    requires Inv(c.sem) && c.reserved > 0
  {
    c.(reserved := c.reserved - 1, sem := if consumed then c.sem else AddPermits(c.sem, 1))
  }

  // Sending through a reservation.
  function SendReserved<T>(c: Chan<T>, v: T): Chan<T>
    requires Inv(c.sem) && c.reserved > 0
  {
    Unreserve(PushAndWake(c, v), true)
  }

  predicate IsClosed<T>(c: Chan<T>, counted: bool) {
    MaskClosed(c.mask, counted)
  }

  // The first element, which frees a slot, or the reason why there is none: outstanding
  // reservations keep a closed channel from being disconnected.
  function TryRecv<T>(c: Chan<T>, counted: bool): (Chan<T>, Result<T, TryRecvError>)
    requires Inv(c.sem)
  {
    if c.elems != [] then (c.(elems := c.elems[1..], sem := AddPermits(c.sem, 1)), Ok(c.elems[0]))
    else (c, Err(if c.reserved == 0 && IsClosed(c, counted) then Disconnected else Empty))
  }

  function PollRecv<T>(c: Chan<T>, counted: bool, cx: Waker): (Chan<T>, RecvPoll<T>)
    requires Inv(c.sem)
  {
    var (c1, r) := TryRecv(c, counted);
    match r
    case Ok(v) => (c1, Received(v))
    case Err(Disconnected) => (c1, Finished)
    case Err(Empty) => (c1.(waker := Some(cx)), RecvPending)
  }

  // The mask is closed, and with the semaphore every waiting sender is woken.
  function CloseChannel<T>(c: Chan<T>, counted: bool): Chan<T>
    requires Inv(c.sem)
  {
    c.(mask := CloseMask(c.mask, counted), sem := Close(c.sem).0)
  }

  // The last sender takes the receiver's waker and calls it.
  function DropSenderCount<T>(c: Chan<T>): Chan<T>
    requires c.mask >= 2
  {
    var (m, last) := DecreaseSenders(c.mask);
    if last && c.waker.Some? then c.(mask := m, waker := None, calls := c.calls + [c.waker.value])
    else c.(mask := m)
  }

  // Splitting refills the pool to the maximum capacity, whatever is queued.  None is the overflow
  // of the subtraction when more permits than that are available.
  function SetCounted<T>(c: Chan<T>): Option<Chan<T>>
    requires Inv(c.sem)
  {
    if c.sem.permits > c.maxCapacity then None
    else Some(c.(sem := AddPermits(c.sem, c.maxCapacity - c.sem.permits),
                 waker := None,
                 mask := ResetMask(c.mask, true)))
  }
}
