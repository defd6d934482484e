/** Facts about sequences, sets and maps that several parts of the scheduler model share. */
module Util {

  datatype Option<+T> = None | Some(value: T)

  function Min(a: int, b: int): int {
    if a < b then a else b
  }

  /* The sequence s without any occurrence of x: list_del of x. */
  function Without<T(==)>(s: seq<T>, x: T): seq<T> {
    if s == [] then []
    else if s[0] == x then Without(s[1..], x)
    else [s[0]] + Without(s[1..], x)
  }

  ghost predicate Distinct<T>(s: seq<T>) {
    forall i, j :: 0 <= i < j < |s| ==> s[i] != s[j]
  }

  lemma {:induction false} WithoutMembers<T>(s: seq<T>, x: T)
    ensures forall y :: y in Without(s, x) ==> y in s && y != x
    ensures forall y :: y in s && y != x ==> y in Without(s, x)
    ensures x !in s ==> Without(s, x) == s
    ensures Distinct(s) ==> Distinct(Without(s, x))
  {
    if s != [] {
      var rest := s[1..];
      WithoutMembers(rest, x);
      assert s == [s[0]] + rest;
      if Distinct(s) {
        assert s[0] !in rest;
        assert forall i, j :: 0 <= i < j < |rest| ==> rest[i] == s[i + 1] && rest[j] == s[j + 1];
      }
    }
  }

  /* The sum of the values of a map. */
  ghost function SumMap<K>(m: map<K, int>): int {
    if m == map[] then 0 else
    var k :| k in m;
    m[k] + SumMap(m - {k})
  }

  lemma SumMapEmpty<K>()
    ensures SumMap<K>(map[]) == 0
  {
  }

  lemma {:induction false} SumMapRemove<K>(m: map<K, int>, k: K)
    requires k in m
    ensures SumMap(m) == m[k] + SumMap(m - {k})
    decreases |m|
  {
    var j :| j in m && SumMap(m) == m[j] + SumMap(m - {j});
    if j != k {
      SumMapRemove(m - {j}, k);
      SumMapRemove(m - {k}, j);
      assert m - {j} - {k} == m - {k} - {j};
    }
  }

  lemma {:induction false} SumMapPositive<K>(m: map<K, int>)
    requires forall k :: k in m ==> m[k] >= 1
    ensures SumMap(m) >= |m|
    decreases |m|
  {
    if m != map[] {
      var k :| k in m && SumMap(m) == m[k] + SumMap(m - {k});
      SumMapPositive(m - {k});
    }
  }

  lemma {:induction false} SumMapBounded<K>(m: map<K, int>, top: nat)
    requires forall k :: k in m ==> 0 <= m[k] <= top
    ensures 0 <= SumMap(m) <= |m| * top
    decreases |m|
  {
    hide SumMap;
    if m == map[] {
      SumMapEmpty<K>();
    } else {
      var k :| k in m;
      SumMapRemove(m, k);
      var rest := m - {k};
      assert rest.Keys == m.Keys - {k};
      SumMapBounded(rest, top);
      OneMore(|rest|, top);
    }
  }

  lemma OneMore(n: nat, top: nat)
    ensures (n + 1) * top == n * top + top
  {
  }

  lemma {:induction false} SumMapUnion<K>(a: map<K, int>, b: map<K, int>)
    requires a.Keys !! b.Keys
    ensures SumMap(a + b) == SumMap(a) + SumMap(b)
    decreases |a|
  {
    hide SumMap;
    if a == map[] {
      SumMapEmpty<K>();
      assert a + b == b;
    } else {
      var k :| k in a;
      SumMapRemove(a, k);
      SumMapRemove(a + b, k);
      SumMapUnion(a - {k}, b);
      MapMinus(a, b, k);
    }
  }

  lemma MapMinus<K, V>(a: map<K, V>, b: map<K, V>, k: K)
    requires k !in b
    ensures (a + b) - {k} == (a - {k}) + b
  {
  }

  lemma SumMapOne<K>(k: K, x: int)
    ensures SumMap(map[k := x]) == x
  {
    SumMapRemove(map[k := x], k);
    assert map[k := x] - {k} == map[];
  }

  ghost function SumReals<K>(m: map<K, real>): real {
    if m == map[] then 0.0 else
    var k :| k in m;
    m[k] + SumReals(m - {k})
  }
}
