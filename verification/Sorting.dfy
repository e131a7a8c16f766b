/** Insertion into a sorted list, the one sorting step every ordering of the program is modelled by. */
module Sorting {

  /** `x` goes before the first entry it is less than, hence after its equals: the sorts are stable. */
  function Insert<T>(less: (T, T) -> bool, xs: seq<T>, x: T): (sorted: seq<T>)
    ensures |sorted| == |xs| + 1
  {
    if |xs| == 0 then [x]
    else if less(x, xs[0]) then [x] + xs
    else [xs[0]] + Insert(less, xs[1..], x)
  }

  lemma {:induction false} InsertAdds<T>(less: (T, T) -> bool, xs: seq<T>, x: T)
    ensures multiset(Insert(less, xs, x)) == multiset(xs) + multiset{x}
  {
    if |xs| > 0 {
      InsertAdds(less, xs[1..], x);
      assert xs == [xs[0]] + xs[1..];
    }
  }

  lemma InsertMembers<T>(less: (T, T) -> bool, xs: seq<T>, x: T, y: T)
    ensures y in Insert(less, xs, x) <==> y == x || y in xs
  {
    InsertAdds(less, xs, x);
    assert y in multiset(Insert(less, xs, x)) <==> y in multiset(xs) + multiset{x};
  }

  lemma Inserted(less: (nat, nat) -> bool, ids: seq<nat>, p: nat)
    ensures forall x: nat :: x in Insert(less, ids, p) <==> x == p || x in ids
  {
    forall x: nat
      ensures x in Insert(less, ids, p) <==> x == p || x in ids
    {
      InsertMembers(less, ids, p, x);
    }
  }
}
