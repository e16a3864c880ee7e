/** Types and list facts shared by the semaphore and the channel models. */
module Basics {

  // The largest value of the machine word that counts permits (64-bit targets).
  const USIZE_MAX: nat := 0xFFFF_FFFF_FFFF_FFFF

  type usize = n: nat | n <= USIZE_MAX

  // A waker is only ever called, so it is represented by its name.
  type Waker = nat

  datatype Option<+T> = None | Some(value: T)

  datatype Result<+T, +E> = Ok(value: T) | Err(error: E)

  // Addition that stops at the largest machine word.
  function SatAdd(a: nat, b: nat): nat {
    if a + b <= USIZE_MAX then a + b else USIZE_MAX
  }

  function Min(a: nat, b: nat): nat {
    if a <= b then a else b
  }

  function Sum(s: seq<nat>): nat {
    if s == [] then 0 else Sum(s[..|s| - 1]) + s[|s| - 1]
  }

  predicate Distinct<T(==)>(s: seq<T>) {
    forall i, j :: 0 <= i < j < |s| ==> s[i] != s[j]
  }

  function RemoveAt<T>(s: seq<T>, k: nat): (r: seq<T>)
    requires k < |s|
    ensures |r| == |s| - 1
  {
    s[..k] + s[k + 1..]
  }

  // The list without its first occurrence of x.
  function Without<T(==)>(s: seq<T>, x: T): seq<T> {
    if s == [] then []
    else if s[0] == x then s[1..]
    else [s[0]] + Without(s[1..], x)
  }

  // a can be obtained from b by deleting elements.
  predicate Subsequence<T(==)>(a: seq<T>, b: seq<T>) {
    if a == [] then true
    else if b == [] then false
    else if a[|a| - 1] == b[|b| - 1] then Subsequence(a[..|a| - 1], b[..|b| - 1])
    else Subsequence(a, b[..|b| - 1])
  }

  lemma {:induction false} WithoutIsRemoveAt<T>(s: seq<T>, k: nat)
    requires k < |s| && Distinct(s)
    ensures Without(s, s[k]) == RemoveAt(s, k)
  {
    if k > 0 {
      WithoutIsRemoveAt(s[1..], k - 1);
      assert s[1..][..k - 1] == s[1..k] && s[1..][k..] == s[k + 1..];
    }
  }

  lemma RemoveAtFacts<T>(s: seq<T>, k: nat)
    requires k < |s| && Distinct(s)
    ensures Distinct(RemoveAt(s, k)) && s[k] !in RemoveAt(s, k)
    ensures forall x :: x in RemoveAt(s, k) <==> x in s && x != s[k]
    ensures forall j :: 0 <= j < |s| - 1 ==> RemoveAt(s, k)[j] == s[if j < k then j else j + 1]
  {
    forall x | x in s && x != s[k]
      ensures x in RemoveAt(s, k)
    {
      var j := IndexOf(s, x);
      assert RemoveAt(s, k)[if j < k then j else j - 1] == x;
    }
  }

  lemma RemoveAtMultiset<T>(s: seq<T>, k: nat)
    requires k < |s|
    ensures multiset(s) == multiset(RemoveAt(s, k)) + multiset{s[k]}
  {
    assert s == s[..k] + [s[k]] + s[k + 1..];
  }

  lemma RemoveAtConcat<T>(a: seq<T>, s: seq<T>, k: nat)
    requires k < |s|
    ensures RemoveAt(a + s, |a| + k) == a + RemoveAt(s, k)
  {
  }

  lemma IndexOf<T>(s: seq<T>, x: T) returns (k: nat)
    requires x in s
    ensures k < |s| && s[k] == x
  {
    k :| k < |s| && s[k] == x;
  }

  lemma {:induction false} SumAppend(s: seq<nat>, x: nat)
    ensures Sum(s + [x]) == Sum(s) + x
  {
    assert (s + [x])[..|s|] == s;
  }

  lemma {:induction false} SumUpdate(s: seq<nat>, i: nat, x: nat)
    requires i < |s|
    ensures Sum(s[i := x]) == Sum(s) - s[i] + x
  {
    var m := |s| - 1;
    if i == m {
      assert s[i := x][..m] == s[..m];
    } else {
      assert s[i := x][..m] == s[..m][i := x];
      SumUpdate(s[..m], i, x);
    }
  }

  lemma {:induction false} SumRemoveAt(s: seq<nat>, k: nat)
    requires k < |s|
    ensures Sum(RemoveAt(s, k)) == Sum(s) - s[k]
  {
    var m := |s| - 1;
    if k == m {
      assert RemoveAt(s, k) == s[..m];
    } else {
      SumRemoveAt(s[..m], k);
      assert RemoveAt(s, k)[..m - 1] == RemoveAt(s[..m], k);
    }
  }

  lemma {:induction false} SumAtLeast(s: seq<nat>, k: nat)
    requires k < |s|
    ensures Sum(s) >= s[k]
  {
    if k < |s| - 1 {
      SumAtLeast(s[..|s| - 1], k);
    }
  }

  lemma {:induction false} SumOfZeros(s: seq<nat>)
    requires forall i :: 0 <= i < |s| ==> s[i] == 0
    ensures Sum(s) == 0
  {
    if s != [] {
      SumOfZeros(s[..|s| - 1]);
    }
  }

  lemma {:induction false} SumPositive(s: seq<nat>) returns (k: nat)
    requires Sum(s) > 0
    ensures k < |s| && s[k] > 0
  {
    if s[|s| - 1] > 0 {
      k := |s| - 1;
    } else {
      k := SumPositive(s[..|s| - 1]);
    }
  }

  // Deleting one element keeps a subsequence a subsequence.
  lemma {:induction false} SubsequenceRemove<T>(a: seq<T>, b: seq<T>, k: nat)
    requires k < |a| && Subsequence(a, b)
    ensures Subsequence(RemoveAt(a, k), b)
    decreases |b|
  {
    var la, lb := |a| - 1, |b| - 1;
    var r := RemoveAt(a, k);
    if a[la] == b[lb] {
      if k == la {
        assert r == a[..la];
        SubsequenceWeaken(a[..la], b[..lb], b[lb]);
        assert b[..lb] + [b[lb]] == b;
      } else {
        SubsequenceRemove(a[..la], b[..lb], k);
        assert r[..|r| - 1] == RemoveAt(a[..la], k);
      }
    } else {
      SubsequenceRemove(a, b[..lb], k);
      SubsequenceWeaken(r, b[..lb], b[lb]);
      assert b[..lb] + [b[lb]] == b;
    }
  }

  lemma {:induction false} SubsequenceWeaken<T>(a: seq<T>, b: seq<T>, x: T)
    requires Subsequence(a, b)
    ensures Subsequence(a, b + [x])
    decreases |b|, 1
  {
    assert (b + [x])[..|b|] == b;
    if a != [] && a[|a| - 1] == x {
      if a[|a| - 1] == b[|b| - 1] {
        SubsequenceWeaken(a[..|a| - 1], b[..|b| - 1], b[|b| - 1]);
        assert b[..|b| - 1] + [b[|b| - 1]] == b;
      } else {
        SubsequenceInit(a, b);
      }
    }
  }

  lemma {:induction false} SubsequenceInit<T>(a: seq<T>, b: seq<T>)
    requires a != [] && Subsequence(a, b)
    ensures Subsequence(a[..|a| - 1], b)
    decreases |b|, 0
  {
    var k := |a| - 1;
    if a[k] == b[|b| - 1] {
      SubsequenceWeaken(a[..k], b[..|b| - 1], b[|b| - 1]);
    } else {
      SubsequenceInit(a, b[..|b| - 1]);
      SubsequenceWeaken(a[..k], b[..|b| - 1], b[|b| - 1]);
    }
    assert b[..|b| - 1] + [b[|b| - 1]] == b;
  }

  lemma {:induction false} SubsequencePrefix<T>(a: seq<T>, b: seq<T>, k: nat)
    requires k <= |a| && Subsequence(a, b)
    ensures Subsequence(a[..k], b)
    decreases |a| - k
  {
    if k < |a| {
      SubsequencePrefix(a, b, k + 1);
      SubsequenceInit(a[..k + 1], b);
      assert a[..k + 1][..k] == a[..k];
    } else {
      assert a[..k] == a;
    }
  }

  lemma {:induction false} SubsequenceAppend<T>(a: seq<T>, b: seq<T>, x: T)
    requires Subsequence(a, b)
    ensures Subsequence(a + [x], b + [x])
  {
    assert (a + [x])[..|a|] == a && (b + [x])[..|b|] == b;
  }
}
