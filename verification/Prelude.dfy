/** Small vocabulary shared by the component models. */
module Prelude {
  datatype Option<+T> = None | Some(value: T)

  datatype Result<+T, +E> = Ok(value: T) | Err(error: E)

  function Min(a: int, b: int): int {
    if a <= b then a else b
  }

  function Max(a: int, b: int): int {
    if a >= b then a else b
  }

  /** Every element but the last: runs are folded from the front, so proofs peel off the end. */
  function Front<T>(s: seq<T>): seq<T>
    requires s != []
  {
    s[..|s| - 1]
  }

  function Last<T>(s: seq<T>): T
    requires s != []
  {
    s[|s| - 1]
  }

  function Sum(s: seq<nat>): nat {
    if s == [] then 0 else s[0] + Sum(s[1..])
  }

  lemma {:induction false} SumAppend(a: seq<nat>, b: seq<nat>)
    ensures Sum(a + b) == Sum(a) + Sum(b)
  {
    if a == [] {
      assert a + b == b;
    } else {
      assert (a + b)[1..] == a[1..] + b;
      SumAppend(a[1..], b);
    }
  }

  /** The sum of all values of a map. */
  ghost function SumOf<K(!new)>(m: map<K, nat>): nat
    decreases m.Keys
  {
    if m == map[] then 0
    else
      var t :| t in m;
      m[t] + SumOf(m - {t})
  }

  lemma {:induction false} SumRemove<K(!new)>(m: map<K, nat>, t: K)
    requires t in m
    ensures SumOf(m) == m[t] + SumOf(m - {t})
    decreases m.Keys
  {
    var k :| k in m && SumOf(m) == m[k] + SumOf(m - {k});
    if k == t {
    } else {
      SumRemove(m - {k}, t);
      SumRemove(m - {t}, k);
      assert (m - {k}) - {t} == (m - {t}) - {k};
    }
  }

  lemma SumUpdate<K(!new)>(m: map<K, nat>, t: K, n: nat)
    ensures SumOf(m[t := n]) == SumOf(m - {t}) + n
    ensures t in m ==> SumOf(m[t := n]) == SumOf(m) - m[t] + n
    ensures t !in m ==> SumOf(m[t := n]) == SumOf(m) + n
  {
    SumRemove(m[t := n], t);
    assert m[t := n] - {t} == m - {t};
    if t in m {
      SumRemove(m, t);
    } else {
      assert m - {t} == m;
    }
  }
}
