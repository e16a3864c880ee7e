/** What the users of a channel observe: the answer of every call, and who holds which handle, permit or
    pending operation after it, from the state before the call. */
module ChannelOutcomes {
  import opened Basics
  import opened SemaphoreModel
  import opened ChannelModel
  import opened ChannelSlots
  import opened ChannelWorld
  import opened ChannelSafety
  import opened ChannelEffects
  import opened ChannelReceiver

  // ---------- Sending ----------

  // A send succeeds exactly when the channel is open and a slot is free; otherwise the element comes
  // back, and the error says whether the channel is closed.
  lemma TrySendExactly<T>(w: World<T>, v: T)
    requires Good(w)
    ensures TrySend(w.chan, v).1 == if w.chan.sem.closed then Err(SendClosed(v))
                                    else if w.chan.sem.permits > 0 then Ok(())
                                    else Err(SendFull(v))
  {
    TrySendUnits(w.chan, v, w.booked);
  }

  // A reservation likewise.
  lemma TryReserveExactly<T>(w: World<T>)
    requires Good(w)
    ensures TryReserve(w.chan).1 == if w.chan.sem.closed then Err(SendClosed(()))
                                    else if w.chan.sem.permits > 0 then Ok(())
                                    else Err(SendFull(()))
  {
    TryReserveUnits(w.chan, w.booked);
  }

  // A permit is handed out if and only if it succeeds; a failed attempt changes nothing at all, and in
  // particular keeps the sender of an owned reserve.
  lemma ReserveOutcome<T>(w: World<T>, call: Call<T>)
    requires Good(w) && Enabled(w, call) && (call.CallTryReserve? || call.CallTryReserveOwned?)
    ensures var r := Next(w, call);
            if w.chan.sem.closed || w.chan.sem.permits == 0 then r == w
            else if call.CallTryReserve? then r == w.(chan := r.chan, borrowed := w.borrowed + 1)
            else r == w.(chan := r.chan, owned := w.owned + 1, senders := w.senders - 1)
  {
    NextIs(w, call);
    TryReserveUnits(w.chan, w.booked);
    hide Good, Inv, Next, SlotFuts, Units;
  }

  // ---------- Pending operations ----------

  lemma StartOutcome<T>(w: World<T>, kind: Kind<T>)
    requires Good(w) && Enabled(w, StartTask(kind))
    ensures Next(w, StartTask(kind))
         == w.(tasks := w.tasks + [Task(kind, None, true)],
               senders := w.senders - if kind.ReserveOwnedTask? then 1 else 0)
  {
    NextIs(w, StartTask(kind));
    hide Good, Next;
  }

  // Only task i has changed, and it is still of the same kind.
  ghost predicate OnlyTask<T>(w: World<T>, r: World<T>, i: nat, live: bool)
    requires i < |w.tasks|
  {
    && |r.tasks| == |w.tasks| && (forall j :: 0 <= j < |w.tasks| && j != i ==> r.tasks[j] == w.tasks[j])
    && r.tasks[i].kind == w.tasks[i].kind && r.tasks[i].live == live && r.receiver == w.receiver
  }

  ghost predicate Holders<T>(r: World<T>, senders: int, borrowed: int, owned: int) {
    r.senders == senders && r.borrowed == borrowed && r.owned == owned
  }

  // A poll ends a pending operation if and only if the channel is closed or it has a unit.  Then a
  // send has no holder left, a reserve has become a permit of its kind, and an owned reserve that is
  // refused has given its sender back.
  ghost predicate PollResult<T>(w: World<T>, i: nat, result: Slot, r: World<T>)
    requires i < |w.tasks|
  {
    && OnlyTask(w, r, i, result.Waits?)
    && match w.tasks[i].kind
       case SendTask(_) => Holders(r, w.senders, w.borrowed, w.owned)
       case ReserveTask => Holders(r, w.senders, if result.Granted? then w.borrowed + 1 else w.borrowed, w.owned)
       case ReserveOwnedTask =>
         Holders(r, if result.Refused? then w.senders + 1 else w.senders, w.borrowed,
                 if result.Granted? then w.owned + 1 else w.owned)
  }

  lemma SlotResult<T>(w: World<T>, i: nat, c: Chan<T>)
    requires i < |w.tasks| && w.tasks[i].live
    ensures var u := WithSlot(w, i).(chan := c);
            && i < |u.tasks|
            && PollResult(w, i, Waits, u) && PollResult(w, i, Granted, TaskGranted(u, i))
            && PollResult(w, i, Refused, TaskRefused(u, i))
  {
  }

  lemma PollOutcome<T>(w: World<T>, i: nat, cx: Waker)
    requires Good(w) && Enabled(w, PollTask(i, cx))
    ensures var result := if w.chan.sem.closed then Refused else if HasUnit(w, i) then Granted else Waits;
            TaskResult(w, i, cx).1 == result && PollResult(w, i, result, Next(w, PollTask(i, cx)))
  {
    NextIs(w, PollTask(i, cx));
    EnabledTask(w, PollTask(i, cx));
    GrantedWhen(w, i, cx);
    PolledIs(w, i, cx);
    SlotResult(w, i, TaskResult(w, i, cx).0);
    hide Good, Next, Perform, TaskPolled, TaskResult, HasUnit, PollResult, TaskGranted, TaskRefused;
  }

  lemma CancelledTask<T>(w: World<T>, i: nat)
    requires Good(w) && i < |w.tasks| && w.tasks[i].live
    ensures var r := TaskCancelled(w, i);
            r.tasks == w.tasks[i := w.tasks[i].(live := false)] && r.receiver == w.receiver
            && Holders(r, w.senders, w.borrowed, w.owned)
  {
    if w.tasks[i].kind.ReserveOwnedTask? {
      HandleInMask(w, i);
    }
    hide Good, Inv, Tied, Accounted, DropAcquire, DropSenderCount;
  }

  // Cancelling ends the operation, and drops the sender that an owned reserve holds.
  lemma CancelOutcome<T>(w: World<T>, i: nat)
    requires Good(w) && Enabled(w, CancelTask(i))
    ensures var r := Next(w, CancelTask(i)); OnlyTask(w, r, i, false) && Holders(r, w.senders, w.borrowed, w.owned)
  {
    NextIs(w, CancelTask(i));
    EnabledTask(w, CancelTask(i));
    CancelledTask(w, i);
    hide Good, Next, Perform, TaskCancelled;
  }

  // ---------- Permits and handles ----------

  lemma PermitOutcome<T>(w: World<T>, call: Call<T>)
    requires Good(w) && Enabled(w, call) && Releases(call)
    ensures var r := Next(w, call);
            && r.tasks == w.tasks
            && match call
               case SendBorrowed(_) => Holders(r, w.senders, w.borrowed - 1, w.owned)
               case DropBorrowed => Holders(r, w.senders, w.borrowed - 1, w.owned)
               case SendOwned(_) => Holders(r, w.senders + 1, w.borrowed, w.owned - 1)
               case _ => Holders(r, w.senders, w.borrowed, w.owned - 1)
  {
    NextIs(w, call);
    hide Good, Next, Inv, AddPermits;
  }

  lemma HandleOutcome<T>(w: World<T>, call: Call<T>)
    requires Good(w) && Enabled(w, call)
    requires call.Split? || call.Rejoin? || call.CloneSender? || call.DropSender? || call.CloseReceiver?
             || call.DropReceiver?
    ensures var r := Next(w, call);
            && r.tasks == w.tasks
            && Holders(r, if call.Split? then 1
                          else if call.CloneSender? then w.senders + 1
                          else if call.DropSender? then w.senders - 1
                          else w.senders, w.borrowed, w.owned)
  {
    NextIs(w, call);
    hide Good, Next, Inv, AddPermits;
  }

  // ---------- Receiving ----------

  // The first element if there is one; Disconnected if the channel is closed and nothing is reserved.
  lemma TryRecvExactly<T>(w: World<T>)
    requires Good(w)
    ensures TryRecv(w.chan, w.split).1 == if w.chan.elems != [] then Ok(w.chan.elems[0])
                                          else if w.chan.reserved == 0 && ClosedFlag(w) then Err(Disconnected)
                                          else Err(Empty)
  {
    DisconnectedMeans(w);
    TryRecvUnits(w.chan, w.split, w.booked);
    hide Good, Inv, ClosedFlag, AddPermits;
  }

  lemma PollRecvExactly<T>(w: World<T>, cx: Waker)
    requires Good(w)
    ensures PollRecv(w.chan, w.split, cx).1 == if w.chan.elems != [] then Received(w.chan.elems[0])
                                               else if w.chan.reserved == 0 && ClosedFlag(w) then Finished
                                               else RecvPending
  {
    TryRecvExactly(w);
    hide Good, Inv, ClosedFlag, TryRecv;
  }

  // Receiving affects no sender.
  lemma ReceiveOutcome<T>(w: World<T>, call: Call<T>)
    requires Good(w) && Enabled(w, call) && (call.CallTryRecv? || call.CallPollRecv? || call.CallTrySend?)
    ensures var r := Next(w, call); r.tasks == w.tasks && Holders(r, w.senders, w.borrowed, w.owned)
  {
    NextIs(w, call);
    hide Good, Next, Inv, AddPermits;
  }
}
