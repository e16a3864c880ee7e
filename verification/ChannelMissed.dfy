/** Runs on which the receiver is not woken although the channel has become disconnected: one for each
    of the calls that miss to wake it. */
module ChannelMissed {
  import opened Basics
  import opened SemaphoreModel
  import opened SemaphoreGrants
  import opened ChannelModel
  import opened ChannelSlots
  import opened ChannelWorld
  import opened ChannelEffects
  import opened ChannelRuns

  // The receiver waits for a call of its waker that was not made, and the channel is disconnected.
  ghost predicate Forgotten<T>(w: World<T>, cx: Waker)
    requires Good(w)
  {
    && w.parked && w.chan.waker == Some(cx) && w.chan.calls == []
    && TryRecv(w.chan, w.split).1 == Err(Disconnected)
  }

  // A channel of capacity one without elements on which no send has ever been started.
  function Bare<T>(permits: nat, closed: bool, reserved: nat, mask: nat, waker: Option<Waker>): Chan<T> {
    Chan(Sem(permits, closed, [], [], []), [], 1, reserved, mask, waker, [])
  }

  // It is used without being split, and has `borrowed` permits.
  function Whole<T>(c: Chan<T>, borrowed: nat): World<T> {
    World(c, [], false, 0, false, borrowed, 0, [], c.waker.Some?, 1, [], [])
  }

  // It is split, with `senders` handles and `owned` permits.
  function Halves<T>(c: Chan<T>, senders: nat, owned: nat): World<T> {
    World(c, [], true, senders, true, 0, owned, [], c.waker.Some?, 1, [], [])
  }

  lemma NewIsBare<T>(w: World<T>)
    requires w == Created<T>(1, [])
    ensures w == Whole(Bare(1, false, 0, 0, None), 0)
  {
    hide Good;
  }

  // ---------- The steps without handles ----------

  lemma WholeReserve<T>(w: World<T>)
    requires Good(w) && w == Whole(Bare(1, false, 0, 0, None), 0)
    ensures Enabled(w, CallTryReserve) && Next(w, CallTryReserve) == Whole(Bare(0, false, 1, 0, None), 1)
  {
    hide Good, Inv;
  }

  lemma WholePoll<T>(w: World<T>, cx: Waker, permits: nat, n: nat)
    requires Good(w) && w == Whole(Bare(permits, false, n, 0, None), n)
    ensures Enabled(w, CallPollRecv(cx))
    ensures Next(w, CallPollRecv(cx)) == Whole(Bare(permits, false, n, 0, Some(cx)), n)
  {
    hide Good, Inv;
  }

  lemma WholeClose<T>(w: World<T>, cx: Waker, permits: nat, n: nat)
    requires Good(w) && w == Whole(Bare(permits, false, n, 0, Some(cx)), n)
    ensures Enabled(w, CloseReceiver)
    ensures Next(w, CloseReceiver) == Whole(Bare(permits, true, n, 1, Some(cx)), n)
  {
    hide Good, Inv;
  }

  lemma WholeDrop<T>(w: World<T>, cx: Waker)
    requires Good(w) && w == Whole(Bare(0, true, 1, 1, Some(cx)), 1)
    ensures Enabled(w, DropBorrowed) && Next(w, DropBorrowed) == Whole(Bare(1, true, 0, 1, Some(cx)), 0)
  {
    hide Good;
    BareDrop(w.chan, 1, cx);
    hide Unreserve, Inv;
  }

  lemma BareDrop<T>(c: Chan<T>, mask: nat, cx: Waker)
    requires c == Bare(0, true, 1, mask, Some(cx))
    ensures Inv(c.sem) && Unreserve(c, false) == Bare(1, true, 0, mask, Some(cx))
  {
    EmptySemaphore(c.sem);
    AddToPool(c.sem, 1);
    hide Inv, AddPermits;
  }

  lemma WholeForgotten<T>(w: World<T>, cx: Waker)
    requires Good(w) && w == Whole(Bare(1, true, 0, 1, Some(cx)), 0)
    ensures Forgotten(w, cx)
  {
    hide Good, Inv;
  }

  // ---------- The steps with handles ----------

  lemma HalvesSplit<T>(w: World<T>)
    requires Good(w) && w == Whole(Bare(1, false, 0, 0, None), 0)
    ensures Enabled(w, Split) && Next(w, Split) == Halves(Bare(1, false, 0, 2, None), 1, 0)
  {
    hide Good;
    BareSplit(w.chan);
    hide SetCounted, Inv;
  }

  lemma BareSplit<T>(c: Chan<T>)
    requires c == Bare(1, false, 0, 0, None)
    ensures Inv(c.sem) && SetCounted(c) == Some(Bare(1, false, 0, 2, None))
  {
    EmptySemaphore(c.sem);
    AddNothing(c.sem);
    hide Inv, AddPermits;
  }

  lemma HalvesClone<T>(w: World<T>)
    requires Good(w) && w == Halves(Bare(1, false, 0, 2, None), 1, 0)
    ensures Enabled(w, CloneSender) && Next(w, CloneSender) == Halves(Bare(1, false, 0, 4, None), 2, 0)
  {
    hide Good, Inv;
  }

  lemma HalvesReserve<T>(w: World<T>)
    requires Good(w) && w == Halves(Bare(1, false, 0, 4, None), 2, 0)
    ensures Enabled(w, CallTryReserveOwned)
    ensures Next(w, CallTryReserveOwned) == Halves(Bare(0, false, 1, 4, None), 1, 1)
  {
    hide Good, Inv;
  }

  lemma HalvesPoll<T>(w: World<T>, cx: Waker)
    requires Good(w) && w == Halves(Bare(0, false, 1, 4, None), 1, 1)
    ensures Enabled(w, CallPollRecv(cx))
    ensures Next(w, CallPollRecv(cx)) == Halves(Bare(0, false, 1, 4, Some(cx)), 1, 1)
  {
    hide Good, Inv;
  }

  lemma HalvesClose<T>(w: World<T>, cx: Waker)
    requires Good(w) && w == Halves(Bare(0, false, 1, 4, Some(cx)), 1, 1)
    ensures Enabled(w, CloseReceiver)
    ensures Next(w, CloseReceiver) == Halves(Bare(0, true, 1, 5, Some(cx)), 1, 1)
  {
    hide Good, Inv;
  }

  lemma HalvesDrop<T>(w: World<T>, cx: Waker)
    requires Good(w) && w == Halves(Bare(0, true, 1, 5, Some(cx)), 1, 1)
    ensures Enabled(w, DropOwned) && Next(w, DropOwned) == Halves(Bare(1, true, 0, 3, Some(cx)), 1, 0)
  {
    hide Good;
    BareDrop(w.chan, 5, cx);
    hide Unreserve, Inv;
  }

  lemma HalvesForgotten<T>(w: World<T>, cx: Waker)
    requires Good(w) && w == Halves(Bare(1, true, 0, 3, Some(cx)), 1, 0)
    ensures Forgotten(w, cx)
  {
    hide Good, Inv;
  }

  // ---------- The runs ----------

  // The receiver closes the channel while it waits.
  lemma CloseMissesTheReceiver<T>(w: World<T>, cx: Waker)
    requires w == Created<T>(1, [])
    ensures var calls := [CallPollRecv(cx), CloseReceiver];
            Possible(w, calls) && Forgotten(Run(w, calls), cx)
  {
    hide *;
    var c: seq<Call<T>> := [CallPollRecv(cx), CloseReceiver];
    NewIsBare(w);
    WholePoll(w, cx, 1, 0);
    var w1 := Next(w, c[0]);
    WholeClose(w1, cx, 1, 0);
    var w2 := Next(w1, c[1]);
    WholeForgotten(w2, cx);
    NoCalls(w2);
    RunCons(w1, c[1], []);
    RunCons(w, c[0], [c[1]] + []);
    assert [c[0]] + ([c[1]] + []) == c;
  }

  // The last reservation of a closed channel is given back.
  lemma DropMissesTheReceiver<T>(w: World<T>, cx: Waker)
    requires w == Created<T>(1, [])
    ensures var calls := [CallTryReserve, CallPollRecv(cx), CloseReceiver, DropBorrowed];
            Possible(w, calls) && Forgotten(Run(w, calls), cx)
  {
    hide *;
    var c: seq<Call<T>> := [CallTryReserve, CallPollRecv(cx), CloseReceiver, DropBorrowed];
    NewIsBare(w);
    WholeReserve(w);
    var w1 := Next(w, c[0]);
    WholePoll(w1, cx, 0, 1);
    var w2 := Next(w1, c[1]);
    WholeClose(w2, cx, 0, 1);
    var w3 := Next(w2, c[2]);
    WholeDrop(w3, cx);
    var w4 := Next(w3, c[3]);
    WholeForgotten(w4, cx);
    NoCalls(w4);
    RunCons(w3, c[3], []);
    RunCons(w2, c[2], [c[3]] + []);
    RunCons(w1, c[1], [c[2]] + ([c[3]] + []));
    RunCons(w, c[0], [c[1]] + ([c[2]] + ([c[3]] + [])));
    assert [c[0]] + ([c[1]] + ([c[2]] + ([c[3]] + []))) == c;
  }

  // The same with an owned permit, while another sender handle is left.
  lemma OwnedDropMissesTheReceiver<T>(w: World<T>, cx: Waker)
    requires w == Created<T>(1, [])
    ensures var calls := [Split, CloneSender, CallTryReserveOwned, CallPollRecv(cx), CloseReceiver, DropOwned];
            Possible(w, calls) && Forgotten(Run(w, calls), cx)
  {
    hide *;
    var c: seq<Call<T>> := [Split, CloneSender, CallTryReserveOwned, CallPollRecv(cx), CloseReceiver, DropOwned];
    NewIsBare(w);
    HalvesSplit(w);
    var w1 := Next(w, c[0]);
    HalvesClone(w1);
    var w2 := Next(w1, c[1]);
    HalvesReserve(w2);
    var w3 := Next(w2, c[2]);
    HalvesPoll(w3, cx);
    var w4 := Next(w3, c[3]);
    HalvesClose(w4, cx);
    var w5 := Next(w4, c[4]);
    HalvesDrop(w5, cx);
    var w6 := Next(w5, c[5]);
    HalvesForgotten(w6, cx);
    NoCalls(w6);
    RunCons(w5, c[5], []);
    RunCons(w4, c[4], [c[5]] + []);
    RunCons(w3, c[3], [c[4]] + ([c[5]] + []));
    RunCons(w2, c[2], [c[3]] + ([c[4]] + ([c[5]] + [])));
    RunCons(w1, c[1], [c[2]] + ([c[3]] + ([c[4]] + ([c[5]] + []))));
    RunCons(w, c[0], [c[1]] + ([c[2]] + ([c[3]] + ([c[4]] + ([c[5]] + [])))));
    assert [c[0]] + ([c[1]] + ([c[2]] + ([c[3]] + ([c[4]] + ([c[5]] + []))))) == c;
  }
}
