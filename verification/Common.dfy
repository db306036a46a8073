/** Small shared vocabulary: optional values, unsigned 64-bit arithmetic and sums over finite maps. */
module Common {

  datatype Option<+T> = None | Some(value: T)

  datatype Result<+T, +E> = Ok(value: T) | Err(error: E)

  /** The elements that satisfy a predicate, in order. */
  function Filter<T>(keep: T -> bool, s: seq<T>): seq<T> {
    if s == [] then []
    else if keep(s[0]) then [s[0]] + Filter(keep, s[1..])
    else Filter(keep, s[1..])
  }

  lemma {:induction false} FilterAppend<T>(keep: T -> bool, a: seq<T>, b: seq<T>)
    ensures Filter(keep, a + b) == Filter(keep, a) + Filter(keep, b)
  {
    if a == [] {
      assert a + b == b;
    } else {
      assert (a + b)[1..] == a[1..] + b;
      FilterAppend(keep, a[1..], b);
    }
  }

  lemma {:induction false} FilterAll<T>(keep: T -> bool, s: seq<T>)
    requires forall x :: x in s ==> keep(x)
    ensures Filter(keep, s) == s
  {
    if s != [] {
      FilterAll(keep, s[1..]);
      assert s == [s[0]] + s[1..];
    }
  }

  lemma {:induction false} FilterNone<T>(keep: T -> bool, s: seq<T>)
    requires forall x :: x in s ==> !keep(x)
    ensures Filter(keep, s) == []
  {
    if s != [] {
      FilterNone(keep, s[1..]);
    }
  }

  lemma {:induction false} FilterMember<T>(keep: T -> bool, s: seq<T>)
    ensures forall x :: x in Filter(keep, s) <==> x in s && keep(x)
    ensures |Filter(keep, s)| <= |s|
    ensures |Filter(keep, s)| == |s| ==> forall x :: x in s ==> keep(x)
  {
    if s != [] {
      FilterMember(keep, s[1..]);
    }
  }

  /** All elements of all lists, in order. */
  function Flatten<T>(ss: seq<seq<T>>): seq<T> {
    if ss == [] then [] else ss[0] + Flatten(ss[1..])
  }

  const U64: nat := 0x1_0000_0000_0000_0000

  /** Addition, negation and subtraction of unsigned 64-bit values wrap around. */
  function AddU64(a: int, b: int): nat { (a + b) % U64 }

  function NegU64(a: int): nat { (-a) % U64 }

  function SubU64(a: int, b: int): nat { (a - b) % U64 }

  /** Adding the two's complement takes away exactly, as long as nothing underflows. */
  lemma AddNegU64(a: nat, b: nat)
    requires b <= a < U64
    ensures AddU64(a, NegU64(b)) == a - b
  {
    assert b > 0 ==> NegU64(b) == U64 - b;
  }

  lemma AddExact(a: nat, b: nat)
    requires a + b < U64
    ensures AddU64(a, b) == a + b
  {
  }

  lemma SubExact(a: nat, b: nat)
    requires b <= a < U64
    ensures SubU64(a, b) == a - b
  {
  }

  /** The sum of all values of a map. */
  ghost function Sum<K>(m: map<K, nat>): nat {
    if m == map[] then 0
    else var k :| k in m; m[k] + Sum(m - {k})
  }

  lemma {:induction false} SumRemove<K>(m: map<K, nat>, k: K)
    requires k in m
    ensures Sum(m) == m[k] + Sum(m - {k})
    decreases |m|
  {
    var j :| j in m && Sum(m) == m[j] + Sum(m - {j});
    if j != k {
      SumRemove(m - {j}, k);
      SumRemove(m - {k}, j);
      assert m - {j} - {k} == m - {k} - {j};
    }
  }

  lemma SumUpdate<K>(m: map<K, nat>, k: K, v: nat)
    ensures Sum(m[k := v]) == v + Sum(m) - (if k in m then m[k] else 0)
    ensures k in m ==> m[k] <= Sum(m)
  {
    SumRemove(m[k := v], k);
    assert m[k := v] - {k} == m - {k};
    if k in m {
      SumRemove(m, k);
    } else {
      assert m - {k} == m;
    }
  }

  /** A map that is pointwise below another has a smaller sum. */
  lemma {:induction false} SumMonotone<K>(m: map<K, nat>, n: map<K, nat>)
    requires m.Keys == n.Keys
    requires forall k :: k in m ==> m[k] <= n[k]
    ensures Sum(m) <= Sum(n)
    decreases |m|
  {
    if m != map[] {
      var k :| k in m;
      SumRemove(m, k);
      SumRemove(n, k);
      SumMonotone(m - {k}, n - {k});
    } else {
      assert n == map[];
    }
  }

  lemma {:induction false} SumOfZeroes<K>(m: map<K, nat>)
    requires forall k :: k in m ==> m[k] == 0
    ensures Sum(m) == 0
    decreases |m|
  {
    if m != map[] {
      var k :| k in m;
      SumRemove(m, k);
      SumOfZeroes(m - {k});
    }
  }

  /** A positive sum has a positive summand. */
  lemma {:induction false} SumPositive<K>(m: map<K, nat>) returns (k: K)
    requires Sum(m) > 0
    ensures k in m && m[k] > 0
  {
    if forall j :: j in m ==> m[j] == 0 {
      SumOfZeroes(m);
      assert false;
    }
    k :| k in m && m[k] > 0;
  }

  /** There is always another number. */
  lemma Unused(ids: set<nat>) returns (n: nat)
    ensures n !in ids
  {
    var rest := ids;
    n := 0;
    while rest != {}
      invariant forall i :: i in ids ==> i in rest || i < n
      decreases rest
    {
      var i :| i in rest;
      rest := rest - {i};
      if n <= i { n := i + 1; }
    }
  }
}
