/** A bounded channel together with everything that exists outside of it: sender and receiver
    handles, pending sends and reserves, and permits; and what each call by the program does to it. */
module ChannelWorld {
  import opened Basics
  import opened SemaphoreModel
  import opened MaskModel
  import opened ChannelModel
  import opened ChannelSlots

  // The asynchronous operations.  An owned reserve holds the sender it was called on.
  datatype Kind<T> = SendTask(value: T) | ReserveTask | ReserveOwnedTask

  // A future returned by send, reserve or reserve_owned; `slot` is its Acquire future, which exists
  // from the first poll on.
  datatype Task<T> = Task(kind: Kind<T>, slot: Option<nat>, live: bool)

  // While the channel is not split it is used directly, and there are no sender or receiver handles.
  // `senders` counts the handles that are not inside an owned permit or a pending owned reserve;
  // `borrowed` and `owned` count the two sorts of outstanding permits.
  // The remaining fields are bookkeeping: which task owns which Acquire future; whether the last
  // receive poll was Pending and its waker has not been called since; the units of capacity that
  // exist; and all elements sent and received so far.
  datatype World<T> = World(
    chan: Chan<T>,
    tasks: seq<Task<T>>,
    split: bool,
    senders: nat,
    receiver: bool,
    borrowed: nat,
    owned: nat,
    owners: seq<nat>,
    parked: bool,
    booked: nat,
    sent: seq<T>,
    received: seq<T>)

  datatype Call<T> =
    | Split
    | Rejoin
    | CloneSender
    | DropSender
    | CloseReceiver
    | DropReceiver
    | CallTrySend(value: T)
    | CallTryReserve
    | CallTryReserveOwned
    | StartTask(kind: Kind<T>)
    | PollTask(task: nat, cx: Waker)
    | CancelTask(task: nat)
    | SendBorrowed(value: T)
    | DropBorrowed
    | SendOwned(value: T)
    | DropOwned
    | CallTryRecv
    | CallPollRecv(cx: Waker)

  // ---------- Handles ----------

  function OwnedMarks<T>(tasks: seq<Task<T>>): seq<nat> {
    seq(|tasks|, i requires 0 <= i < |tasks| => if tasks[i].live && tasks[i].kind.ReserveOwnedTask? then 1 else 0)
  }

  // All sender handles, wherever they are.
  function Handles<T>(w: World<T>): nat {
    w.senders + w.owned + Sum(OwnedMarks(w.tasks))
  }

  // Some pending task borrows the sender or the channel.
  predicate TaskBorrows<T>(t: Task<T>) {
    t.live && !t.kind.ReserveOwnedTask?
  }

  predicate Borrowing<T>(w: World<T>) {
    w.borrowed > 0 || exists i :: 0 <= i < |w.tasks| && TaskBorrows(w.tasks[i])
  }

  predicate HasPending<T>(w: World<T>) {
    exists i :: 0 <= i < |w.tasks| && w.tasks[i].live
  }

  // ---------- What every reachable state satisfies ----------

  // Pending tasks that have been polled and live Acquire futures correspond to each other.
  predicate Tied<T>(w: World<T>) {
    && |w.owners| == |w.chan.sem.futs|
    && (forall i :: 0 <= i < |w.tasks| && w.tasks[i].live && w.tasks[i].slot.Some? ==>
          Live(w.chan.sem, w.tasks[i].slot.value) && w.owners[w.tasks[i].slot.value] == i)
    && (forall id :: 0 <= id < |w.owners| && w.chan.sem.futs[id].live ==>
          w.owners[id] < |w.tasks| && w.tasks[w.owners[id]].live && w.tasks[w.owners[id]].slot == Some(id))
  }

  // The word in the mask counts all sender handles; the channel is closed once the receiver has
  // closed it or the last sender is gone.
  predicate ClosedFlag<T>(w: World<T>) {
    w.chan.sem.closed || (w.split && Handles(w) == 0)
  }

  predicate Accounted<T>(w: World<T>) {
    && w.chan.mask == Packed(Handles(w), ClosedFlag(w))
    && w.chan.reserved == w.borrowed + w.owned
    && (!w.split ==> Handles(w) == 0)
    && (w.split && Borrowing(w) ==> w.senders > 0)
    && (w.split && !w.receiver ==> w.chan.sem.closed)
  }

  ghost predicate Good<T>(w: World<T>) {
    Sound(w.chan, w.booked) && Tied(w) && Accounted(w)
  }

  // ---------- Which calls are possible ----------

  predicate MaySend<T>(w: World<T>) {
    w.split ==> w.senders > 0
  }

  predicate MayReceive<T>(w: World<T>) {
    w.split ==> w.receiver
  }

  // A sender handle can be given away or dropped unless it is the last one and something borrows it.
  predicate MayMoveSender<T>(w: World<T>) {
    w.split && w.senders > 0 && (w.senders == 1 ==> !Borrowing(w))
  }

  // Nothing borrows the channel, so that it can be split.
  predicate Unshared<T>(w: World<T>) {
    !w.split && !Borrowing(w) && !HasPending(w)
  }

  // Moreover, the units that exist afterwards still fit a machine word.
  predicate MaySplit<T>(w: World<T>) {
    Unshared(w) && w.chan.maxCapacity + |w.chan.elems| <= USIZE_MAX
  }

  // Ownership rules out all other calls.  Two calls that it allows can panic: splitting, when more
  // permits are available than the capacity; and cloning, when the count overflows.
  predicate Enabled<T>(w: World<T>, call: Call<T>) {
    match call
    case Split => MaySplit(w) && w.chan.sem.permits <= w.chan.maxCapacity
    case Rejoin => w.split && Handles(w) == 0 && !Borrowing(w) && !w.receiver
    case CloneSender => w.split && w.senders > 0 && IncreaseSenders(w.chan.mask).Some?
    case DropSender => MayMoveSender(w)
    case CloseReceiver => MayReceive(w)
    case DropReceiver => w.split && w.receiver
    case CallTrySend(_) => MaySend(w)
    case CallTryReserve => MaySend(w)
    case CallTryReserveOwned => MayMoveSender(w)
    case StartTask(kind) => if kind.ReserveOwnedTask? then MayMoveSender(w) else MaySend(w)
    case PollTask(i, _) => i < |w.tasks| && w.tasks[i].live
    case CancelTask(i) => i < |w.tasks| && w.tasks[i].live
    case SendBorrowed(_) => w.borrowed > 0
    case DropBorrowed => w.borrowed > 0
    case SendOwned(_) => w.owned > 0
    case DropOwned => w.owned > 0
    case CallTryRecv => MayReceive(w)
    case CallPollRecv(_) => MayReceive(w)
  }

  // ---------- The calls ----------

  // The channel has changed; if a waker of the receiver was called, the receiver will poll again.
  function WithChan<T>(w: World<T>, c: Chan<T>): World<T> {
    w.(chan := c, parked := w.parked && |c.calls| == |w.chan.calls|)
  }

  function FinishTask<T>(w: World<T>, i: nat): World<T>
    requires i < |w.tasks|
  {
    w.(tasks := w.tasks[i := w.tasks[i].(live := false)])
  }

  // Task i has obtained a unit: it sends its element, or turns the unit into a permit.
  function TaskGranted<T>(w: World<T>, i: nat): World<T>
    requires i < |w.tasks|
  {
    var d := FinishTask(w, i);
    match w.tasks[i].kind
    case SendTask(v) => WithChan(d, PushAndWake(d.chan, v)).(sent := d.sent + [v])
    case ReserveTask => d.(chan := Reserved(d.chan), borrowed := d.borrowed + 1)
    case ReserveOwnedTask => d.(chan := Reserved(d.chan), owned := d.owned + 1)
  }

  // Task i has failed; an owned reserve hands its sender back with the error.
  function TaskRefused<T>(w: World<T>, i: nat): World<T>
    requires i < |w.tasks|
  {
    var d := FinishTask(w, i);
    if w.tasks[i].kind.ReserveOwnedTask? then d.(senders := d.senders + 1) else d
  }

  // The Acquire future of task i exists.
  function WithSlot<T>(w: World<T>, i: nat): World<T>
    requires i < |w.tasks|
  {
    if w.tasks[i].slot.Some? then w
    else
      w.(chan := w.chan.(sem := BuildAcquire(w.chan.sem, 1)),
         owners := w.owners + [i],
         tasks := w.tasks[i := w.tasks[i].(slot := Some(|w.chan.sem.futs|))])
  }

  lemma WithSlotIsLive<T>(w: World<T>, i: nat)
    requires Good(w) && i < |w.tasks| && w.tasks[i].live
    ensures var u := WithSlot(w, i);
            && |u.tasks| == |w.tasks| && u.tasks[i].slot.Some?
            && Inv(u.chan.sem) && Live(u.chan.sem, u.tasks[i].slot.value)
  {
    BuildSlot(w.chan.sem);
  }

  function TaskResult<T>(w: World<T>, i: nat, cx: Waker): (Chan<T>, Slot)
    requires Good(w) && i < |w.tasks| && w.tasks[i].live
  {
    WithSlotIsLive(w, i);
    var u := WithSlot(w, i);
    PollSlot(u.chan, u.tasks[i].slot.value, cx)
  }

  // It is what polling the future returned by send or reserve does up to that point.
  lemma TaskAwaitsSlot<T>(w: World<T>, i: nat, cx: Waker)
    requires Good(w) && i < |w.tasks| && w.tasks[i].live
    ensures TaskResult(w, i, cx) == AwaitSlot(w.chan, w.tasks[i].slot, cx)
  {
    hide Sound, Accounted;
    WithSlotIsLive(w, i);
  }

  function TaskPolled<T>(w: World<T>, i: nat, cx: Waker): World<T>
    requires Good(w) && i < |w.tasks| && w.tasks[i].live
  {
    var (c, r) := TaskResult(w, i, cx);
    var u := WithSlot(w, i).(chan := c);
    match r
    case Waits => u
    case Granted => TaskGranted(u, i)
    case Refused => TaskRefused(u, i)
  }

  function SlotDropped<T>(w: World<T>, i: nat): World<T>
    requires Inv(w.chan.sem) && Tied(w) && i < |w.tasks| && w.tasks[i].live
  {
    var slot := w.tasks[i].slot;
    if slot.Some? then w.(chan := w.chan.(sem := DropAcquire(w.chan.sem, slot.value))) else w
  }

  // A cancelled task drops its Acquire future first and then the sender it holds.
  function TaskCancelled<T>(w: World<T>, i: nat): World<T>
    requires Good(w) && i < |w.tasks| && w.tasks[i].live
  {
    var d := FinishTask(SlotDropped(w, i), i);
    if w.tasks[i].kind.ReserveOwnedTask? then
      HandleInMask(w, i);
      WithChan(d, DropSenderCount(d.chan))
    else d
  }

  lemma HandleInMask<T>(w: World<T>, i: nat)
    requires Accounted(w) && i < |w.tasks| && w.tasks[i].live && w.tasks[i].kind.ReserveOwnedTask?
    ensures w.chan.mask >= 2 && Handles(w) >= 1
  {
    SumAtLeast(OwnedMarks(w.tasks), i);
  }

  function AfterTryReserve<T>(w: World<T>, ownedPermit: bool): World<T>
    requires ownedPermit ==> w.senders > 0
  {
    var (c, r) := TryReserve(w.chan);
    if r.Err? then w.(chan := c)
    else if ownedPermit then w.(chan := c, owned := w.owned + 1, senders := w.senders - 1)
    else w.(chan := c, borrowed := w.borrowed + 1)
  }

  // Dropping an owned permit gives the reservation back and then drops the sender inside.
  function AfterDropOwned<T>(w: World<T>): World<T>
    requires Good(w) && w.owned > 0
  {
    WithChan(w, DropSenderCount(Unreserve(w.chan, false))).(owned := w.owned - 1)
  }

  function AfterTryRecv<T>(w: World<T>): World<T>
    requires Good(w)
  {
    var (c, r) := TryRecv(w.chan, w.split);
    w.(chan := c, received := if r.Ok? then w.received + [r.value] else w.received)
  }

  function AfterPollRecv<T>(w: World<T>, cx: Waker): World<T>
    requires Good(w)
  {
    var (c, r) := PollRecv(w.chan, w.split, cx);
    w.(chan := c, parked := r.RecvPending?, received := if r.Received? then w.received + [r.value] else w.received)
  }

  function Perform<T>(w: World<T>, call: Call<T>): World<T>
    requires Good(w) && Enabled(w, call)
  {
    match call
    case Split =>
      w.(chan := SetCounted(w.chan).value, split := true, senders := 1, receiver := true, parked := false,
         booked := w.chan.maxCapacity + |w.chan.elems|)
    case Rejoin => w.(split := false)
    case CloneSender => w.(chan := w.chan.(mask := IncreaseSenders(w.chan.mask).value), senders := w.senders + 1)
    case DropSender => WithChan(w, DropSenderCount(w.chan)).(senders := w.senders - 1)
    case CloseReceiver => w.(chan := CloseChannel(w.chan, w.split))
    case DropReceiver => w.(chan := CloseChannel(w.chan, true), receiver := false, parked := false)
    case CallTrySend(v) =>
      var (c, r) := TrySend(w.chan, v);
      WithChan(w, c).(sent := if r.Ok? then w.sent + [v] else w.sent)
    case CallTryReserve => AfterTryReserve(w, false)
    case CallTryReserveOwned => AfterTryReserve(w, true)
    case StartTask(kind) =>
      w.(tasks := w.tasks + [Task(kind, None, true)],
         senders := if kind.ReserveOwnedTask? then w.senders - 1 else w.senders)
    case PollTask(i, cx) => TaskPolled(w, i, cx)
    case CancelTask(i) => TaskCancelled(w, i)
    case SendBorrowed(v) => WithChan(w, SendReserved(w.chan, v)).(borrowed := w.borrowed - 1, sent := w.sent + [v])
    case DropBorrowed => w.(chan := Unreserve(w.chan, false), borrowed := w.borrowed - 1)
    case SendOwned(v) =>
      WithChan(w, SendReserved(w.chan, v)).(owned := w.owned - 1, senders := w.senders + 1, sent := w.sent + [v])
    case DropOwned => AfterDropOwned(w)
    case CallTryRecv => AfterTryRecv(w)
    case CallPollRecv(cx) => AfterPollRecv(w, cx)
  }

  // A new channel that is not yet split.
  function NewWorld<T>(c: Chan<T>): World<T> {
    World(c, [], false, 0, false, 0, 0, [], false, c.maxCapacity, [], [])
  }
}
