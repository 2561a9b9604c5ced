/** Which history entries `trimTerminalTasksLocked` gives up, stated without its loops. */
module HistoryTrim {
  import opened Prelude

  /** The last `k` entries of `order` that are outside `keep` (all of them when there are fewer). */
  function Dropped(order: seq<nat>, keep: set<nat>, k: int): set<nat> {
    if order == [] || k <= 0 then {}
    else
      var n := |order| - 1;
      if order[n] in keep then Dropped(order[..n], keep, k)
      else Dropped(order[..n], keep, k - 1) + {order[n]}
  }

  /** `order` without the entries in `gone`, in the same relative order. */
  function Without(order: seq<nat>, gone: set<nat>): seq<nat> {
    if order == [] then []
    else
      var n := |order| - 1;
      Without(order[..n], gone) + (if order[n] in gone then [] else [order[n]])
  }

  lemma {:induction false} WithoutMember(order: seq<nat>, gone: set<nat>, x: nat)
    ensures x in Without(order, gone) <==> x in order && x !in gone
  {
    if order != [] {
      var n := |order| - 1;
      WithoutMember(order[..n], gone, x);
      assert x in order <==> x in order[..n] || x == order[n] by {
        assert order == order[..n] + [order[n]];
      }
    }
  }

  lemma WithoutElements(order: seq<nat>, gone: set<nat>)
    ensures Elements(Without(order, gone)) == Elements(order) - gone
  {
    forall x ensures x in Without(order, gone) <==> x in order && x !in gone {
      WithoutMember(order, gone, x);
    }
  }

  lemma {:induction false} WithoutFacts(order: seq<nat>, gone: set<nat>)
    requires NoDuplicates(order)
    ensures NoDuplicates(Without(order, gone))
    ensures |Without(order, gone)| <= |order|
  {
    if order != [] {
      var n := |order| - 1;
      WithoutFacts(order[..n], gone);
      WithoutMember(order[..n], gone, order[n]);
    }
  }

  lemma {:induction false} WithoutNothing(order: seq<nat>)
    ensures Without(order, {}) == order
  {
    if order != [] {
      WithoutNothing(order[..|order| - 1]);
    }
  }

  lemma {:induction false} WithoutConcat(a: seq<nat>, b: seq<nat>, gone: set<nat>)
    ensures Without(a + b, gone) == Without(a, gone) + Without(b, gone)
  {
    if b == [] {
      assert a + b == a;
    } else {
      var n := |b| - 1;
      WithoutConcat(a, b[..n], gone);
      assert (a + b)[..|a + b| - 1] == a + b[..n];
      assert (a + b)[|a + b| - 1] == b[n];
    }
  }

  /** Filtering by two sets in turn is filtering by their union. */
  lemma {:induction false} WithoutTwice(order: seq<nat>, first: set<nat>, second: set<nat>)
    ensures Without(Without(order, first), second) == Without(order, first + second)
  {
    if order != [] {
      var n := |order| - 1;
      WithoutTwice(order[..n], first, second);
      var last := if order[n] in first then [] else [order[n]];
      WithoutConcat(Without(order[..n], first), last, second);
      if order[n] !in first {
        assert last[..0] == [] && Without([], second) == [];
      }
    }
  }

  lemma {:induction false} WithoutOthers(order: seq<nat>, gone: set<nat>)
    requires forall i :: 0 <= i < |order| ==> order[i] !in gone
    ensures Without(order, gone) == order
  {
    if order != [] {
      WithoutOthers(order[..|order| - 1], gone);
    }
  }

  /** The code's way of deleting index `at`: both sides of it, joined. */
  lemma {:induction false} WithoutOne(order: seq<nat>, at: nat)
    requires at < |order| && NoDuplicates(order)
    ensures Without(order, {order[at]}) == order[..at] + order[at + 1..]
  {
    var n := |order| - 1;
    if at == n {
      WithoutOthers(order[..n], {order[at]});
      assert order[n + 1..] == [];
    } else {
      WithoutOne(order[..n], at);
      assert order[at + 1..] == order[..n][at + 1..] + [order[n]];
    }
  }

  /** One round of the outer loop: the last entry outside `keep` is the first one to go. */
  lemma {:induction false} DropOne(order: seq<nat>, keep: set<nat>, at: nat, k: int)
    requires at < |order| && order[at] !in keep
    requires forall j :: at < j < |order| ==> order[j] in keep
    requires k >= 1
    ensures Dropped(order, keep, k) == {order[at]} + Dropped(order[..at] + order[at + 1..], keep, k - 1)
  {
    var n := |order| - 1;
    if at == n {
      assert order[..at] + order[at + 1..] == order[..n];
    } else {
      DropOne(order[..n], keep, at, k);
      var rest := order[..at] + order[at + 1..];
      assert rest[|rest| - 1] == order[n];
      assert rest[..|rest| - 1] == order[..n][..at] + order[..n][at + 1..];
      if k == 1 {
        assert Dropped(rest, keep, 0) == {};
      }
    }
  }

  /** No entry outside `keep`: the early return of the outer loop. */
  lemma {:induction false} DropNone(order: seq<nat>, keep: set<nat>, k: int)
    requires forall j :: 0 <= j < |order| ==> order[j] in keep
    ensures Dropped(order, keep, k) == {}
  {
    if order != [] && k > 0 {
      DropNone(order[..|order| - 1], keep, k);
    }
  }

  lemma DropNothing(order: seq<nat>, keep: set<nat>, k: int)
    requires k <= 0
    ensures Dropped(order, keep, k) == {}
  {
  }

  lemma {:induction false} DroppedIsOutside(order: seq<nat>, keep: set<nat>, k: int)
    ensures Dropped(order, keep, k) !! keep
    ensures Dropped(order, keep, k) <= Elements(order)
  {
    if order != [] && k > 0 {
      var n := |order| - 1;
      DroppedIsOutside(order[..n], keep, k);
      DroppedIsOutside(order[..n], keep, k - 1);
    }
  }

  /** How many entries a trim gives up. */
  lemma {:induction false} DroppedCount(order: seq<nat>, keep: set<nat>, k: nat)
    requires NoDuplicates(order)
    ensures |Dropped(order, keep, k)| == Min(k, |Elements(order) - keep|)
  {
    hide Dropped, Elements, NoDuplicates;
    DroppedSnoc(order, keep, k);
    FrontIsDistinct(order);
    if order != [] && k > 0 {
      var front, last := order[..|order| - 1], order[|order| - 1];
      SnocElements(order);
      DroppedCount(front, keep, k);
      DroppedCount(front, keep, k - 1);
      DroppedIsOutside(front, keep, k - 1);
      CountSnoc(Elements(front), last, keep, Dropped(front, keep, k - 1));
    }
  }

  lemma DroppedSnoc(order: seq<nat>, keep: set<nat>, k: nat)
    ensures order == [] ==> Dropped(order, keep, k) == {} && Elements(order) == {}
    ensures order != [] && k > 0 ==>
      var front, last := order[..|order| - 1], order[|order| - 1];
      Dropped(order, keep, k) == if last in keep then Dropped(front, keep, k) else Dropped(front, keep, k - 1) + {last}
    ensures k == 0 ==> Dropped(order, keep, k) == {}
  {
  }

  lemma FrontIsDistinct(order: seq<nat>)
    requires NoDuplicates(order)
    ensures order != [] ==> NoDuplicates(order[..|order| - 1])
  {
  }

  lemma CountSnoc(front: set<nat>, last: nat, keep: set<nat>, gone: set<nat>)
    requires last !in front && gone <= front
    ensures last in keep ==> front + {last} - keep == front - keep
    ensures last !in keep ==> |front + {last} - keep| == |front - keep| + 1
    ensures |gone + {last}| == |gone| + 1
  {
    if last !in keep {
      assert front + {last} - keep == (front - keep) + {last};
    }
  }

  lemma SnocElements(order: seq<nat>)
    requires NoDuplicates(order) && order != []
    ensures Elements(order) == Elements(order[..|order| - 1]) + {order[|order| - 1]}
    ensures order[|order| - 1] !in Elements(order[..|order| - 1])
  {
    var n := |order| - 1;
    assert order == order[..n] + [order[n]];
  }

  /** Every unprotected entry that stays stands before (is newer than) every entry that goes. */
  lemma {:induction false} DroppedAreOldest(order: seq<nat>, keep: set<nat>, k: int, i: nat, j: nat)
    requires NoDuplicates(order)
    requires i < |order| && order[i] in Dropped(order, keep, k)
    requires j < |order| && order[j] !in Dropped(order, keep, k) && order[j] !in keep
    ensures j < i
  {
    var n := |order| - 1;
    var front := order[..n];
    SnocElements(order);
    if order[n] in keep {
      DroppedIsOutside(front, keep, k);
      DroppedAreOldest(front, keep, k, i, j);
    } else if i < n {
      DroppedIsOutside(front, keep, k - 1);
      DroppedAreOldest(front, keep, k - 1, i, j);
    }
  }

  /** After a trim to `bound`, the history is within the bound whenever enough entries are unprotected. */
  lemma TrimmedLength(order: seq<nat>, keep: set<nat>, bound: nat)
    requires NoDuplicates(order)
    ensures |Without(order, Dropped(order, keep, |order| - bound))|
            == |order| - Min(Max(|order| - bound, 0), |Elements(order) - keep|)
  {
    hide Dropped, Without, Elements, NoDuplicates;
    var gone := Dropped(order, keep, |order| - bound);
    if |order| <= bound {
      DropNothing(order, keep, |order| - bound);
    }
    DroppedCount(order, keep, Max(|order| - bound, 0));
    DroppedIsOutside(order, keep, |order| - bound);
    WithoutFacts(order, gone);
    WithoutElements(order, gone);
    DistinctCount(order);
    DistinctCount(Without(order, gone));
    assert |Elements(order) - gone| == |Elements(order)| - |gone| by {
      assert Elements(order) == (Elements(order) - gone) + gone;
    }
  }
}
