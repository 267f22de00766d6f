/** Ascending order of integer keys, and stable sorting of keyed items. */
module Ordering {

  lemma {:induction false} MinExists(s: set<int>)
    requires s != {}
    ensures exists m :: m in s && forall k :: k in s ==> m <= k
    decreases |s|
  {
    assert (forall k :: k !in s) ==> s == {};
    var x :| x in s;
    var rest := s - {x};
    assert s == rest + {x};
    if rest != {} {
      MinExists(rest);
      var m :| m in rest && forall k :: k in rest ==> m <= k;
      var low := if x < m then x else m;
      assert low in s && forall k :: k in s ==> low <= k;
    } else {
      assert forall k :: k in s ==> x <= k;
    }
  }

  function Min(s: set<int>): (m: int)
    requires s != {}
    ensures m in s && forall k :: k in s ==> m <= k
  {
    MinExists(s);
    var m :| m in s && forall k :: k in s ==> m <= k;
    m
  }

  ghost predicate Ascending(keys: seq<int>)
  {
    forall i, j :: 0 <= i < j < |keys| ==> keys[i] < keys[j]
  }

  /** The members of `s` in ascending order: `[...keys].sort((a, b) => a - b)`. */
  function Sorted(s: set<int>): (keys: seq<int>)
    ensures forall k :: k in keys <==> k in s
    ensures Ascending(keys)
  {
    if s == {} then [] else [Min(s)] + Sorted(s - {Min(s)})
  }

  // ----- Items that carry a key -----

  type Keyed<T> = (int, T)

  /** The items with key `k`, in order. */
  function ItemsOf<T>(k: int, items: seq<Keyed<T>>): seq<T>
  {
    if items == [] then []
    else (if items[0].0 == k then [items[0].1] else []) + ItemsOf(k, items[1..])
  }

  /** Keep the order of equal keys: insert after everything not greater. */
  function Insert<T>(x: Keyed<T>, sorted: seq<Keyed<T>>): seq<Keyed<T>>
  {
    if sorted == [] || x.0 < sorted[0].0 then [x] + sorted
    else [sorted[0]] + Insert(x, sorted[1..])
  }

  function StableSort<T>(items: seq<Keyed<T>>): seq<Keyed<T>>
  {
    if items == [] then [] else Insert(items[|items| - 1], StableSort(items[..|items| - 1]))
  }

  ghost predicate AscendingItems<T>(items: seq<Keyed<T>>)
  {
    forall i, j :: 0 <= i < j < |items| ==> items[i].0 <= items[j].0
  }

  ghost predicate KeysIn<T>(items: seq<Keyed<T>>, keys: seq<int>)
  {
    forall i :: 0 <= i < |items| ==> items[i].0 in keys
  }

  lemma {:induction false} ItemsOfAppend<T>(k: int, a: seq<Keyed<T>>, b: seq<Keyed<T>>)
    ensures ItemsOf(k, a + b) == ItemsOf(k, a) + ItemsOf(k, b)
    decreases |a|
  {
    if a == [] {
      assert a + b == b;
    } else {
      ItemsOfAppend(k, a[1..], b);
      assert (a + b)[1..] == a[1..] + b;
    }
  }

  lemma {:induction false} InsertKeeps<T>(x: Keyed<T>, sorted: seq<Keyed<T>>)
    ensures forall y :: y in Insert(x, sorted) <==> y == x || y in sorted
    decreases |sorted|
  {
    if sorted != [] && x.0 >= sorted[0].0 {
      InsertKeeps(x, sorted[1..]);
      assert forall y :: y in sorted <==> y == sorted[0] || y in sorted[1..];
    }
  }

  lemma {:induction false} InsertAscends<T>(x: Keyed<T>, sorted: seq<Keyed<T>>, keys: seq<int>)
    requires AscendingItems(sorted)
    ensures AscendingItems(Insert(x, sorted)) && Insert(x, sorted) != []
    ensures Insert(x, sorted)[0] == if sorted == [] || x.0 < sorted[0].0 then x else sorted[0]
    ensures x.0 in keys && KeysIn(sorted, keys) ==> KeysIn(Insert(x, sorted), keys)
    decreases |sorted|
  {
    if sorted != [] && x.0 >= sorted[0].0 {
      InsertAscends(x, sorted[1..], keys);
    }
  }

  lemma {:induction false} InsertIsStable<T>(x: Keyed<T>, sorted: seq<Keyed<T>>, k: int)
    requires AscendingItems(sorted)
    ensures ItemsOf(k, Insert(x, sorted)) == ItemsOf(k, sorted) + if x.0 == k then [x.1] else []
    decreases |sorted|
  {
    if sorted == [] || x.0 < sorted[0].0 {
      assert ([x] + sorted)[1..] == sorted;
      if x.0 == k {
        NothingAbove(k, sorted);
      }
    } else {
      InsertIsStable(x, sorted[1..], k);
      var rest := Insert(x, sorted[1..]);
      assert ([sorted[0]] + rest)[1..] == rest;
    }
  }

  lemma {:induction false} NothingAbove<T>(k: int, items: seq<Keyed<T>>)
    requires AscendingItems(items) && (items == [] || k < items[0].0)
    ensures ItemsOf(k, items) == []
    decreases |items|
  {
    if items != [] {
      NothingAbove(k, items[1..]);
    }
  }

  lemma {:induction false} SortKeeps<T>(items: seq<Keyed<T>>)
    ensures forall y :: y in StableSort(items) <==> y in items
    decreases |items|
  {
    hide Insert;
    if items != [] {
      var n := |items| - 1;
      SortKeeps(items[..n]);
      InsertKeeps(items[n], StableSort(items[..n]));
      assert forall y :: y in items <==> y in items[..n] || y == items[n];
    }
  }

  lemma {:induction false} SortAscends<T>(items: seq<Keyed<T>>, keys: seq<int>)
    ensures AscendingItems(StableSort(items))
    ensures KeysIn(items, keys) ==> KeysIn(StableSort(items), keys)
    decreases |items|
  {
    hide Insert;
    if items != [] {
      var n := |items| - 1;
      SortAscends(items[..n], keys);
      InsertAscends(items[n], StableSort(items[..n]), keys);
    }
  }

  lemma {:induction false} InsertBelow<T>(x: Keyed<T>, sorted: seq<Keyed<T>>, bound: int)
    requires x.0 <= bound && forall i :: 0 <= i < |sorted| ==> sorted[i].0 <= bound
    ensures forall i :: 0 <= i < |Insert(x, sorted)| ==> Insert(x, sorted)[i].0 <= bound
    decreases |sorted|
  {
    if sorted != [] && x.0 >= sorted[0].0 {
      InsertBelow(x, sorted[1..], bound);
    }
  }

  lemma {:induction false} SortBelow<T>(items: seq<Keyed<T>>, bound: int)
    requires forall i :: 0 <= i < |items| ==> items[i].0 <= bound
    ensures forall i :: 0 <= i < |StableSort(items)| ==> StableSort(items)[i].0 <= bound
    decreases |items|
  {
    hide Insert;
    if items != [] {
      var n := |items| - 1;
      SortBelow(items[..n], bound);
      InsertBelow(items[n], StableSort(items[..n]), bound);
    }
  }

  lemma {:induction false} SortIsStable<T>(items: seq<Keyed<T>>, k: int)
    ensures ItemsOf(k, StableSort(items)) == ItemsOf(k, items)
    decreases |items|
  {
    hide Insert;
    if items != [] {
      var n := |items| - 1;
      SortIsStable(items[..n], k);
      SortAscends(items[..n], []);
      InsertIsStable(items[n], StableSort(items[..n]), k);
      assert items == items[..n] + [items[n]];
      ItemsOfAppend(k, items[..n], [items[n]]);
      assert [items[n]][1..] == [];
    }
  }

  /** Values grouped by key, keys ascending. */
  function Grouped<T>(keys: seq<int>, items: seq<Keyed<T>>): seq<T>
  {
    if keys == [] then [] else ItemsOf(keys[0], items) + Grouped(keys[1..], items)
  }

  function Values<T>(items: seq<Keyed<T>>): seq<T>
  {
    if items == [] then [] else [items[0].1] + Values(items[1..])
  }

  /** Ascending items are their groups, one after the other, for any ascending list that covers the keys. */
  lemma {:induction false} AscendingItemsAreGrouped<T>(keys: seq<int>, items: seq<Keyed<T>>)
    requires Ascending(keys) && AscendingItems(items)
    requires KeysIn(items, keys)
    ensures Values(items) == Grouped(keys, items)
    decreases |keys|, |items|
  {
    if keys == [] {
      assert items == [];
    } else if items != [] && items[0].0 == keys[0] {
      AscendingItemsAreGrouped(keys, items[1..]);
      GroupedWithoutHead(keys[1..], items);
    } else {
      KeyIsAbsent(keys, items);
      AscendingItemsAreGrouped(keys[1..], items);
      NotThere(keys[0], items);
    }
  }

  lemma KeyIsAbsent<T>(keys: seq<int>, items: seq<Keyed<T>>)
    requires Ascending(keys) && AscendingItems(items) && keys != []
    requires KeysIn(items, keys)
    requires items == [] || items[0].0 != keys[0]
    ensures forall i :: 0 <= i < |items| ==> items[i].0 != keys[0]
    ensures KeysIn(items, keys[1..])
  {
    if items != [] {
      var i :| 0 <= i < |keys| && keys[i] == items[0].0;
      assert keys[0] < keys[i];
    }
  }

  lemma {:induction false} NotThere<T>(k: int, items: seq<Keyed<T>>)
    requires forall i :: 0 <= i < |items| ==> items[i].0 != k
    ensures ItemsOf(k, items) == []
  {
    if items != [] {
      NotThere(k, items[1..]);
    }
  }

  lemma {:induction false} GroupedWithoutHead<T>(keys: seq<int>, items: seq<Keyed<T>>)
    requires items != [] && items[0].0 !in keys
    ensures Grouped(keys, items) == Grouped(keys, items[1..])
    decreases |keys|
  {
    if keys != [] {
      assert keys[0] in keys;
      GroupedWithoutHead(keys[1..], items);
    }
  }

  lemma {:induction false} GroupedAgree<T>(keys: seq<int>, a: seq<Keyed<T>>, b: seq<Keyed<T>>)
    requires forall k :: k in keys ==> ItemsOf(k, a) == ItemsOf(k, b)
    ensures Grouped(keys, a) == Grouped(keys, b)
  {
    if keys != [] {
      assert keys[0] in keys;
      GroupedAgree(keys[1..], a, b);
    }
  }

  /** Stable sorting by key lists the groups in ascending key order. */
  lemma StableSortGroups<T>(keys: seq<int>, items: seq<Keyed<T>>)
    requires Ascending(keys)
    requires KeysIn(items, keys)
    ensures Values(StableSort(items)) == Grouped(keys, items)
  {
    hide StableSort, Grouped, Values, ItemsOf;
    SortAscends(items, keys);
    AscendingItemsAreGrouped(keys, StableSort(items));
    forall k | k in keys ensures ItemsOf(k, StableSort(items)) == ItemsOf(k, items) {
      SortIsStable(items, k);
    }
    GroupedAgree(keys, StableSort(items), items);
  }
}
