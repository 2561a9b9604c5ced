/** Small shared datatypes and facts about the built-in collections. */
module Prelude {

  datatype Option<+T> = None | Some(value: T)

  datatype Result<+T, +E> = Ok(value: T) | Err(error: E)

  function Min(a: int, b: int): int {
    if a < b then a else b
  }

  function Max(a: int, b: int): int {
    if a < b then b else a
  }

  /** The largest value of Go's int64. */
  const MAX_INT64 := 0x7FFF_FFFF_FFFF_FFFF

  newtype Int64 = x: int | -0x8000_0000_0000_0000 <= x <= 0x7FFF_FFFF_FFFF_FFFF

  newtype Byte = x: int | 0 <= x < 0x100

  ghost predicate NoDuplicates<T>(s: seq<T>) {
    forall i, j :: 0 <= i < j < |s| ==> s[i] != s[j]
  }

  ghost function Elements<T>(s: seq<T>): set<T> {
    set x | x in s
  }

  function Lookup<K, V>(m: map<K, V>, k: K): Option<V> {
    if k in m then Some(m[k]) else None
  }

  lemma SubsetSize<T>(a: set<T>, b: set<T>)
    requires a <= b
    ensures |a| <= |b|
  {
    assert b == a + (b - a);
  }

  /** A duplicate-free sequence has as many entries as elements. */
  lemma {:induction false} DistinctCount<T>(s: seq<T>)
    requires NoDuplicates(s)
    ensures |Elements(s)| == |s|
  {
    if s != [] {
      var n := |s| - 1;
      var front := s[..n];
      DistinctCount(front);
      assert s == front + [s[n]];
      assert Elements(s) == Elements(front) + {s[n]};
      assert s[n] !in Elements(front);
    }
  }

  /** A map that gives every element of `a` a different element of `b` shows that `a` is no larger. */
  lemma {:induction false} InjectionSize<A, B>(a: set<A>, f: map<A, B>, b: set<B>)
    requires a <= f.Keys
    requires forall x :: x in a ==> f[x] in b
    requires forall x, y :: x in a && y in a && f[x] == f[y] ==> x == y
    ensures |a| <= |b|
  {
    if a != {} {
      var x :| x in a;
      InjectionSize(a - {x}, f, b - {f[x]});
    }
  }
}
