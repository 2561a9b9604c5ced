/** Stable sorting by a given order, as `sort.SliceStable` promises it. */
module StableSort {
  /** "Comes before" is asymmetric, and "does not come before" is transitive. */
  ghost predicate WeakOrder<T(!new)>(less: (T, T) -> bool) {
    && (forall a, b :: less(a, b) ==> !less(b, a))
    && (forall a, b, c :: !less(b, a) && !less(c, b) ==> !less(c, a))
  }

  ghost predicate Ordered<T>(s: seq<T>, less: (T, T) -> bool) {
    forall i, j :: 0 <= i < j < |s| ==> !less(s[j], s[i])
  }

  function Insert<T>(s: seq<T>, x: T, less: (T, T) -> bool): seq<T> {
    if s == [] then [x]
    else if less(x, s[|s| - 1]) then Insert(s[..|s| - 1], x, less) + [s[|s| - 1]]
    else s + [x]
  }

  function Sort<T>(s: seq<T>, less: (T, T) -> bool): seq<T> {
    if s == [] then [] else Insert(Sort(s[..|s| - 1], less), s[|s| - 1], less)
  }

  function Filter<T>(s: seq<T>, keep: T -> bool): seq<T> {
    if s == [] then []
    else Filter(s[..|s| - 1], keep) + if keep(s[|s| - 1]) then [s[|s| - 1]] else []
  }

  lemma FilterAppend<T>(s: seq<T>, x: T, keep: T -> bool)
    ensures Filter(s + [x], keep) == Filter(s, keep) + if keep(x) then [x] else []
  {
    assert (s + [x])[..|s|] == s;
  }

  lemma {:induction false} InsertElements<T>(s: seq<T>, x: T, less: (T, T) -> bool)
    ensures multiset(Insert(s, x, less)) == multiset(s) + multiset{x}
  {
    if s != [] {
      var n := |s| - 1;
      InsertElements(s[..n], x, less);
      assert s == s[..n] + [s[n]];
    }
  }

  lemma {:induction false} InsertOrdered<T(!new)>(s: seq<T>, x: T, less: (T, T) -> bool)
    requires WeakOrder(less) && Ordered(s, less)
    ensures Ordered(Insert(s, x, less), less)
  {
    if s != [] {
      var n := |s| - 1;
      if less(x, s[n]) {
        var front := Insert(s[..n], x, less);
        InsertOrdered(s[..n], x, less);
        InsertElements(s[..n], x, less);
        forall i | 0 <= i < |front| ensures !less(s[n], front[i]) {
          assert front[i] in multiset(front);
          if front[i] != x {
            assert front[i] in multiset(s[..n]);
          }
        }
      } else {
        forall i | 0 <= i < |s| ensures !less(x, s[i]) {
          assert i < n ==> !less(s[n], s[i]);
        }
      }
    }
  }

  /** Entries that are not told apart by the order. */
  ghost predicate Alike<T(!new)>(keep: T -> bool, less: (T, T) -> bool) {
    forall a, b :: keep(a) && keep(b) ==> !less(a, b)
  }

  lemma {:induction false} InsertStable<T(!new)>(s: seq<T>, x: T, less: (T, T) -> bool, keep: T -> bool)
    requires Alike(keep, less)
    ensures Filter(Insert(s, x, less), keep) == Filter(s + [x], keep)
  {
    FilterAppend(s, x, keep);
    if s != [] && less(x, s[|s| - 1]) {
      var n := |s| - 1;
      InsertStable(s[..n], x, less, keep);
      FilterAppend(Insert(s[..n], x, less), s[n], keep);
      FilterAppend(s[..n], x, keep);
    }
  }

  /** Sorting keeps the elements, puts them in order, and keeps alike entries in their order. */
  lemma {:induction false} SortIsStable<T(!new)>(s: seq<T>, less: (T, T) -> bool)
    requires WeakOrder(less)
    ensures multiset(Sort(s, less)) == multiset(s) && Ordered(Sort(s, less), less)
    ensures forall keep: T -> bool :: Alike(keep, less) ==> Filter(Sort(s, less), keep) == Filter(s, keep)
  {
    if s != [] {
      var n := |s| - 1;
      var front := Sort(s[..n], less);
      SortIsStable(s[..n], less);
      InsertElements(front, s[n], less);
      InsertOrdered(front, s[n], less);
      assert s == s[..n] + [s[n]];
      forall keep: T -> bool | Alike(keep, less) ensures Filter(Sort(s, less), keep) == Filter(s, keep) {
        InsertStable(front, s[n], less, keep);
        FilterAppend(front, s[n], keep);
      }
    }
  }

  // ----- the order of strings -----

  predicate Before(a: string, b: string) {
    b != "" && (a == "" || a[0] < b[0] || (a[0] == b[0] && Before(a[1..], b[1..])))
  }

  lemma {:induction false} BeforeAsymmetric(a: string, b: string)
    ensures Before(a, b) ==> !Before(b, a)
  {
    if a != "" && b != "" {
      BeforeAsymmetric(a[1..], b[1..]);
    }
  }

  lemma {:induction false} NotBeforeTransitive(a: string, b: string, c: string)
    ensures !Before(b, a) && !Before(c, b) ==> !Before(c, a)
  {
    if a != "" && b != "" && c != "" {
      NotBeforeTransitive(a[1..], b[1..], c[1..]);
    }
  }

  /** The first difference decides, and a proper prefix comes first. */
  lemma {:induction false} BeforeIff(a: string, b: string)
    ensures Before(a, b) <==> || (a <= b && a != b)
                              || exists k :: 0 <= k < |a| && k < |b| && a[..k] == b[..k] && a[k] < b[k]
  {
    if a != "" && b != "" && a[0] == b[0] {
      var x, y := a[1..], b[1..];
      BeforeIff(x, y);
      assert a == [a[0]] + x && b == [b[0]] + y;
      if k :| 0 <= k < |x| && k < |y| && x[..k] == y[..k] && x[k] < y[k] {
        assert a[..k + 1] == [a[0]] + x[..k] && b[..k + 1] == [b[0]] + y[..k];
        assert a[k + 1] < b[k + 1];
      }
      if k :| 0 <= k < |a| && k < |b| && a[..k] == b[..k] && a[k] < b[k] {
        assert k > 0;
        assert x[..k - 1] == a[..k][1..] && y[..k - 1] == b[..k][1..];
        assert x[k - 1] < y[k - 1];
      }
    } else if a != "" && b != "" && a[0] < b[0] {
      assert a[..0] == b[..0];
    } else {
      forall k | 0 < k < |a| && k < |b| ensures a[..k] != b[..k] {
        assert a[..k][0] == a[0] && b[..k][0] == b[0];
      }
    }
  }
}
