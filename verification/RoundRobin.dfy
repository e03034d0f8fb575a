/**
 Spreading messages over the partitions of a topic.

 The producers sit in a deque that is rotated left before each pick; it starts rotated right by one
 so that the first partition is picked first.
 */
module RoundRobin {
  import opened Prelude

  function RotateLeft<T>(s: seq<T>): (r: seq<T>)
    ensures |r| == |s|
  {
    if s == [] then [] else s[1..] + [s[0]]
  }

  function RotateRight<T>(s: seq<T>): (r: seq<T>)
    ensures |r| == |s|
  {
    if s == [] then [] else [Last(s)] + Front(s)
  }

  /** The deque after `k` picks. */
  function Rotated<T>(s: seq<T>, k: nat): (r: seq<T>)
    ensures |r| == |s|
  {
    if k == 0 then RotateRight(s) else RotateLeft(Rotated(s, k - 1))
  }

  /** The partition at the front after `k` picks. */
  function Cursor(k: nat, n: nat): (c: nat)
    requires n > 0
    ensures c < n
  {
    if k == 0 then n - 1 else if Cursor(k - 1, n) + 1 == n then 0 else Cursor(k - 1, n) + 1
  }

  lemma {:induction false} RotatedIsShifted<T>(s: seq<T>, k: nat)
    requires s != []
    ensures Rotated(s, k) == s[Cursor(k, |s|)..] + s[..Cursor(k, |s|)]
  {
    var n := |s|;
    if k == 0 {
      assert s[n - 1..] == [Last(s)];
    } else {
      RotatedIsShifted(s, k - 1);
      var c := Cursor(k - 1, n);
      assert s[c..] == [s[c]] + s[c + 1..];
      assert (s[c..] + s[..c])[1..] + [s[c]] == s[c + 1..] + (s[..c] + [s[c]]);
      assert s[..c] + [s[c]] == s[..c + 1];
      if c + 1 == n {
        assert s[n..] + s[..n] == s[0..] + s[..0];
      }
    }
  }

  lemma MultipleIsLarge(n: int, d: int)
    requires n > 0
    ensures d >= 1 ==> n * d >= n
    ensures d <= -1 ==> n * d <= 0 - n
  {
  }

  lemma DivModUnique(a: nat, n: nat, q: nat, r: nat)
    requires n > 0 && r < n && a == q * n + r
    ensures a / n == q && a % n == r
  {
    var d := a / n - q;
    assert n * d == n * (a / n) - n * q;
    assert n * (a / n) + a % n == a;
    MultipleIsLarge(n, d);
  }

  lemma NextDivMod(k: nat, n: nat)
    requires n > 0
    ensures if (k % n) + 1 == n then (k + 1) / n == k / n + 1 && (k + 1) % n == 0
            else (k + 1) / n == k / n && (k + 1) % n == k % n + 1
  {
    var q, r := k / n, k % n;
    assert k == q * n + r;
    if r + 1 == n {
      assert k + 1 == (q + 1) * n;
      DivModUnique(k + 1, n, q + 1, 0);
    } else {
      DivModUnique(k + 1, n, q, r + 1);
    }
  }

  lemma {:induction false} CursorCounts(k: nat, n: nat)
    requires n > 0 && k > 0
    ensures Cursor(k, n) == (k - 1) % n
  {
    if k == 1 {
      DivModUnique(0, n, 0, 0);
    } else {
      CursorCounts(k - 1, n);
      NextDivMod(k - 2, n);
    }
  }

  lemma RotatedFront<T>(s: seq<T>, k: nat)
    requires s != [] && k > 0
    ensures Rotated(s, k)[0] == s[(k - 1) % |s|]
  {
    RotatedIsShifted(s, k);
    CursorCounts(k, |s|);
  }

  class PartitionedProducer<T> {
    var producers: seq<T>
    ghost var partitions: seq<T>
    ghost var picks: nat

    ghost predicate Valid()
      reads this
    {
      partitions != [] && producers == Rotated(partitions, picks)
    }

    constructor (built: seq<T>)
      requires built != []
      ensures Valid() && partitions == built && picks == 0
    {
      partitions, picks := built, 0;
      producers := RotateRight(built);
    }

    method Next() returns (p: T)
      requires Valid()
      modifies this
      ensures Valid() && partitions == old(partitions) && picks == old(picks) + 1
      ensures p == partitions[old(picks) % |partitions|]
    {
      RotatedFront(partitions, picks + 1);
      producers := producers[1..] + [producers[0]];
      picks := picks + 1;
      p := producers[0];
    }
  }

  /** How often `x` is at the front of the deque in the first `k` picks. */
  function Picked<T(==)>(s: seq<T>, k: nat, x: T): nat
    requires s != []
  {
    if k == 0 then 0 else Picked(s, k - 1, x) + if Rotated(s, k)[0] == x then 1 else 0
  }

  predicate Distinct<T(==)>(s: seq<T>) {
    forall i, j :: 0 <= i < j < |s| ==> s[i] != s[j]
  }

  lemma ShiftDivMod(k: nat, n: nat)
    requires n > 0
    ensures (k + n) / n == k / n + 1 && (k + n) % n == k % n
  {
    var q, r := k / n, k % n;
    assert k == q * n + r;
    assert (q + 1) * n == q * n + n;
    DivModUnique(k + n, n, q + 1, r);
  }

  /** Every partition gets its fair share, give or take one. */
  lemma {:induction false} FairShares<T>(s: seq<T>, k: nat, j: nat)
    requires j < |s| && Distinct(s)
    ensures Picked(s, k, s[j]) == k / |s| + if j < k % |s| then 1 else 0
  {
    if k == 0 {
      DivModUnique(0, |s|, 0, 0);
    } else {
      FairShares(s, k - 1, j);
      NextDivMod(k - 1, |s|);
      RotatedFront(s, k);
      var i := (k - 1) % |s|;
      assert s[i] == s[j] <==> i == j;
    }
  }

  /** Any `n` picks in a row take each partition exactly once, and no two partitions ever differ by more than one. */
  lemma RoundsAreFair<T>(s: seq<T>, k: nat, i: nat, j: nat)
    requires i < |s| && j < |s| && Distinct(s)
    ensures Picked(s, k + |s|, s[i]) == Picked(s, k, s[i]) + 1
    ensures -1 <= Picked(s, k, s[i]) - Picked(s, k, s[j]) <= 1
  {
    FairShares(s, k, i);
    FairShares(s, k, j);
    FairShares(s, k + |s|, i);
    ShiftDivMod(k, |s|);
  }
}
