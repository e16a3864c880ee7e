/** The sender count and the closed flag of src/mask.rs, packed into one machine word: as a value
    (MaskModel) and as the object that the channel updates in place (MaskHeap). */
module MaskModel {
  import opened Basics

  // The word that stands for `count` senders and the closed flag.
  function Packed(count: nat, closed: bool): nat {
    2 * count + if closed then 1 else 0
  }

  function ResetMask(bits: nat, counted: bool): nat {
    if counted then bits + 2 else bits % 2
  }

  predicate MaskClosed(bits: nat, counted: bool) {
    if counted then bits % 2 == 1 else bits == 1
  }

  // In counted mode the lowest bit is set; otherwise the whole word is overwritten.
  function CloseMask(bits: nat, counted: bool): nat {
    if counted then bits - bits % 2 + 1 else 1
  }

  // None is the panic of the checked addition.
  function IncreaseSenders(bits: nat): Option<nat> {
    if bits + 2 <= USIZE_MAX then Some(bits + 2) else None
  }

  // The new word and whether the last sender is gone.
  function DecreaseSenders(bits: nat): (nat, bool)
    requires bits >= 2
  {
    if bits - 2 < 2 then (1, true) else (bits - 2, false)
  }

  // The word determines the count and the flag.
  lemma PackedInjective(m: nat, a: bool, n: nat, b: bool)
    requires Packed(m, a) == Packed(n, b)
    ensures m == n && a == b
  {
    assert Packed(m, a) / 2 == m && Packed(n, b) / 2 == n;
  }

  // What the operations mean for the count and the flag, in counted mode.  The flag is only ever
  // set; the last sender is the one that brings the count to zero, and it sets the flag.
  lemma CountedMeaning(count: nat, closed: bool)
    ensures MaskClosed(Packed(count, closed), true) <==> closed
    ensures CloseMask(Packed(count, closed), true) == Packed(count, true)
    ensures ResetMask(Packed(count, closed), true) == Packed(count + 1, closed)
    ensures Packed(count + 1, closed) <= USIZE_MAX ==>
            IncreaseSenders(Packed(count, closed)) == Some(Packed(count + 1, closed))
    ensures Packed(count + 1, closed) > USIZE_MAX ==> IncreaseSenders(Packed(count, closed)) == None
    ensures count >= 1 ==>
              Packed(count, closed) >= 2
              && DecreaseSenders(Packed(count, closed))
                 == (if count == 1 then (Packed(0, true), true) else (Packed(count - 1, closed), false))
  {
    assert Packed(count, closed) % 2 == if closed then 1 else 0;
  }

  // In uncounted mode there are no senders, and the word is the flag.
  lemma UncountedMeaning(closed: bool)
    ensures MaskClosed(Packed(0, closed), false) <==> closed
    ensures CloseMask(Packed(0, closed), false) == Packed(0, true)
    ensures ResetMask(Packed(0, closed), false) == Packed(0, closed)
  {
  }
}

module MaskHeap {
  import opened Basics
  import M = MaskModel

  class Mask {
    var bits: usize

    constructor ()
      ensures bits == 0
    {
      bits := 0;
    }

    method Reset(counted: bool)
      requires counted ==> bits + 2 <= USIZE_MAX
      modifies this
      ensures bits == M.ResetMask(old(bits), counted)
    {
      if counted {
        bits := bits + 2;
      } else {
        bits := bits % 2;
      }
    }

    function IsClosed(counted: bool): (r: bool)
      reads this
      ensures r == M.MaskClosed(bits, counted)
    {
      if counted then bits % 2 == 1 else bits == 1
    }

    method Close(counted: bool)
      modifies this
      ensures bits == M.CloseMask(old(bits), counted)
    {
      if counted {
        bits := if bits % 2 == 1 then bits else bits + 1;
      } else {
        bits := 1;
      }
    }

    // Fails, where the program panics, if one more sender does not fit the word.
    method IncreaseSenderCount() returns (ok: bool)
      modifies this
      ensures ok ==> M.IncreaseSenders(old(bits)) == Some(bits)
      ensures !ok ==> M.IncreaseSenders(old(bits)) == None && bits == old(bits)
    {
      ok := bits <= USIZE_MAX - 2;
      if ok {
        bits := bits + 2;
      }
    }

    method DecreaseSenderCount() returns (last: bool)
      requires bits >= 2
      modifies this
      ensures (bits, last) == M.DecreaseSenders(old(bits))
    {
      bits := bits - 2;
      last := bits < 2;
      if last {
        bits := 1;
      }
    }
  }
}
