/** Sorting by a key, keeping the order of equal keys. */
module StableSort {

  /** `m` goes after everything whose key is not greater. */
  function Insert<T>(sorted: seq<T>, m: T, key: T -> int): seq<T> {
    if sorted == [] || key(sorted[|sorted| - 1]) <= key(m) then sorted + [m]
    else Insert(sorted[..|sorted| - 1], m, key) + [sorted[|sorted| - 1]]
  }

  function SortByKey<T>(items: seq<T>, key: T -> int): seq<T> {
    if items == [] then [] else Insert(SortByKey(items[..|items| - 1], key), items[|items| - 1], key)
  }

  predicate Ordered<T>(items: seq<T>, key: T -> int) {
    forall i, j :: 0 <= i < j < |items| ==> key(items[i]) <= key(items[j])
  }

  function WithKey<T>(items: seq<T>, key: T -> int, k: int): seq<T> {
    if items == [] then []
    else WithKey(items[..|items| - 1], key, k) + if key(items[|items| - 1]) == k then [items[|items| - 1]] else []
  }

  lemma WithKeyAppend<T>(items: seq<T>, m: T, key: T -> int, k: int)
    ensures WithKey(items + [m], key, k) == WithKey(items, key, k) + if key(m) == k then [m] else []
  {
    assert (items + [m])[..|items|] == items;
  }

  lemma {:induction false} InsertFilters<T>(sorted: seq<T>, m: T, key: T -> int, k: int)
    ensures WithKey(Insert(sorted, m, key), key, k) == WithKey(sorted, key, k) + if key(m) == k then [m] else []
  {
    if sorted == [] || key(sorted[|sorted| - 1]) <= key(m) {
      WithKeyAppend(sorted, m, key, k);
    } else {
      var front, last := sorted[..|sorted| - 1], sorted[|sorted| - 1];
      InsertFilters(front, m, key, k);
      WithKeyAppend(Insert(front, m, key), last, key, k);
    }
  }

  lemma {:induction false} InsertKeeps<T>(sorted: seq<T>, m: T, key: T -> int)
    ensures multiset(Insert(sorted, m, key)) == multiset(sorted) + multiset{m}
  {
    if !(sorted == [] || key(sorted[|sorted| - 1]) <= key(m)) {
      var front, last := sorted[..|sorted| - 1], sorted[|sorted| - 1];
      InsertKeeps(front, m, key);
      assert sorted == front + [last];
    }
  }

  lemma {:induction false} InsertOrders<T>(sorted: seq<T>, m: T, key: T -> int, bound: int)
    requires Ordered(sorted, key) && key(m) <= bound && forall i :: 0 <= i < |sorted| ==> key(sorted[i]) <= bound
    ensures Ordered(Insert(sorted, m, key), key)
    ensures forall i :: 0 <= i < |Insert(sorted, m, key)| ==> key(Insert(sorted, m, key)[i]) <= bound
  {
    if !(sorted == [] || key(sorted[|sorted| - 1]) <= key(m)) {
      var front, last := sorted[..|sorted| - 1], sorted[|sorted| - 1];
      InsertOrders(front, m, key, key(last));
    }
  }

  function MaxKey<T>(items: seq<T>, key: T -> int): (bound: int)
    ensures forall i :: 0 <= i < |items| ==> key(items[i]) <= bound
  {
    if items == [] then 0
    else
      var before, last := MaxKey(items[..|items| - 1], key), key(items[|items| - 1]);
      if last > before then last else before
  }

  lemma {:induction false} SortOrders<T>(items: seq<T>, key: T -> int)
    ensures Ordered(SortByKey(items, key), key)
  {
    if items != [] {
      var sorted, last := SortByKey(items[..|items| - 1], key), items[|items| - 1];
      SortOrders(items[..|items| - 1], key);
      var bound := MaxKey(sorted, key);
      InsertOrders(sorted, last, key, if key(last) > bound then key(last) else bound);
    }
  }

  /** Items of one key keep their order. */
  lemma {:induction false} SortFilters<T>(items: seq<T>, key: T -> int, k: int)
    ensures WithKey(SortByKey(items, key), key, k) == WithKey(items, key, k)
  {
    if items != [] {
      SortFilters(items[..|items| - 1], key, k);
      InsertFilters(SortByKey(items[..|items| - 1], key), items[|items| - 1], key, k);
    }
  }

  /** No item is lost or invented. */
  lemma {:induction false} SortKeeps<T>(items: seq<T>, key: T -> int)
    ensures multiset(SortByKey(items, key)) == multiset(items)
  {
    if items != [] {
      var front, last := items[..|items| - 1], items[|items| - 1];
      SortKeeps(front, key);
      InsertKeeps(SortByKey(front, key), last, key);
      assert items == front + [last];
    }
  }
}
