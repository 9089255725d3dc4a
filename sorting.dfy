/** Python's `sorted` on the keys and items of a dictionary whose keys are
    distinct under a strict total order (the order the keys' `<` defines). */
module Sorting {

  /** `less` is a strict total order on the elements of `ks`. */
  ghost predicate StrictTotalOrderOn<K>(less: (K, K) -> bool, ks: set<K>) {
    && (forall a :: a in ks ==> !less(a, a))
    && (forall a, b, c :: a in ks && b in ks && c in ks && less(a, b) && less(b, c) ==> less(a, c))
    && (forall a, b :: a in ks && b in ks && a != b ==> less(a, b) || less(b, a))
  }

  /** Strictly ascending: every earlier element is below every later one. */
  ghost predicate Ascending<K>(s: seq<K>, less: (K, K) -> bool) {
    forall i, j :: 0 <= i < j < |s| ==> less(s[i], s[j])
  }

  /** The keys of `items`, in order. */
  function KeysOf<K, V>(items: seq<(K, V)>): (ks: seq<K>)
    ensures |ks| == |items|
    ensures forall i :: 0 <= i < |items| ==> ks[i] == items[i].0
  {
    if items == [] then [] else [items[0].0] + KeysOf(items[1..])
  }

  /** `items` is `sorted(m.items())`: strictly ascending by key, and holding
      exactly the entries of `m`. Under a strict total order on the keys
      this determines `items` (see SortedItemsUnique). */
  ghost predicate IsSortedItems<K, V>(items: seq<(K, V)>, m: map<K, V>, less: (K, K) -> bool) {
    && Ascending(KeysOf(items), less)
    && (forall i :: 0 <= i < |items| ==> items[i].0 in m && m[items[i].0] == items[i].1)
    && (forall k :: k in m ==> exists i :: 0 <= i < |items| && items[i].0 == k)
  }

  /** `sorted(ks)`: insertion sort of a finite set of keys. */
  method SortKeys<K>(ks: set<K>, less: (K, K) -> bool) returns (s: seq<K>)
    requires StrictTotalOrderOn(less, ks)
    ensures Ascending(s, less)
    ensures forall k :: k in s <==> k in ks
    ensures |s| == |ks|
  {
    s := [];
    var rest := ks;
    while rest != {}
      invariant rest <= ks
      invariant forall k :: k in s <==> k in ks && k !in rest
      invariant |s| + |rest| == |ks|
      invariant Ascending(s, less)
      decreases |rest|
    {
      var k :| k in rest;
      var i := 0;
      while i < |s| && less(s[i], k)
        invariant 0 <= i <= |s|
        invariant forall j :: 0 <= j < i ==> less(s[j], k)
      {
        i := i + 1;
      }
      // every element from i on lies above k
      forall j | i <= j < |s|
        ensures less(k, s[j])
      {
        assert s[i] in ks && s[i] != k && !less(s[i], k);
        if j > i {
          assert less(s[i], s[j]);
        }
      }
      s := s[..i] + [k] + s[i..];
      rest := rest - {k};
    }
  }

  /** `sorted(m.items())`. */
  method SortItems<K, V>(m: map<K, V>, less: (K, K) -> bool) returns (items: seq<(K, V)>)
    requires StrictTotalOrderOn(less, m.Keys)
    ensures IsSortedItems(items, m, less)
    ensures |items| == |m|
  {
    var ks := SortKeys(m.Keys, less);
    items := [];
    var i := 0;
    while i < |ks|
      invariant 0 <= i <= |ks|
      invariant |items| == i
      invariant forall j :: 0 <= j < i ==> items[j] == (ks[j], m[ks[j]])
    {
      items := items + [(ks[i], m[ks[i]])];
      i := i + 1;
    }
    ItemsOfSortedKeys(m, less, ks, items);
  }

  lemma ItemsOfSortedKeys<K, V>(m: map<K, V>, less: (K, K) -> bool, ks: seq<K>, items: seq<(K, V)>)
    requires Ascending(ks, less)
    requires forall k :: k in ks <==> k in m.Keys
    requires |items| == |ks| && forall j :: 0 <= j < |ks| ==> items[j] == (ks[j], m[ks[j]])
    ensures IsSortedItems(items, m, less)
  {
    assert KeysOf(items) == ks;
    forall k | k in m
      ensures exists j :: 0 <= j < |items| && items[j].0 == k
    {
      var j :| 0 <= j < |ks| && ks[j] == k;
      assert items[j].0 == k;
    }
  }

  /** Two sorted item lists of the same dictionary are equal: `sorted` has
      only one possible answer. */
  lemma {:induction false} SortedItemsUnique<K, V>(a: seq<(K, V)>, b: seq<(K, V)>, m: map<K, V>, less: (K, K) -> bool)
    requires StrictTotalOrderOn(less, m.Keys)
    requires IsSortedItems(a, m, less) && IsSortedItems(b, m, less)
    ensures a == b
    decreases |a| + |b|
  {
    if a == [] || b == [] {
      EmptySortedItems(a, m, less);
      EmptySortedItems(b, m, less);
    } else {
      var ka, kb := a[0].0, b[0].0;
      HeadIsLeast(a, m, less);
      HeadIsLeast(b, m, less);
      assert ka == kb;
      assert a[0] == b[0];
      var m' := map k | k in m && k != ka :: m[k];
      SortedTail(a, m, less);
      SortedTail(b, m, less);
      SortedItemsUnique(a[1..], b[1..], m', less);
      SameHeadSameTail(a, b);
    }
  }

  lemma SameHeadSameTail<T>(a: seq<T>, b: seq<T>)
    requires a != [] && b != [] && a[0] == b[0] && a[1..] == b[1..]
    ensures a == b
  {
    assert a == [a[0]] + a[1..] && b == [b[0]] + b[1..];
  }

  lemma EmptySortedItems<K, V>(a: seq<(K, V)>, m: map<K, V>, less: (K, K) -> bool)
    requires IsSortedItems(a, m, less)
    ensures a == [] <==> m == map[]
  {
    if a != [] {
      assert a[0].0 in m;
    }
    if m != map[] {
      var k :| k in m;
      var i :| 0 <= i < |a| && a[i].0 == k;
    }
  }

  /** The head of a sorted item list holds the least key. */
  lemma HeadIsLeast<K, V>(a: seq<(K, V)>, m: map<K, V>, less: (K, K) -> bool)
    requires IsSortedItems(a, m, less) && a != []
    ensures a[0].0 in m
    ensures forall k :: k in m && k != a[0].0 ==> less(a[0].0, k)
  {
    forall k | k in m && k != a[0].0
      ensures less(a[0].0, k)
    {
      var i :| 0 <= i < |a| && a[i].0 == k;
      assert KeysOf(a)[0] == a[0].0 && KeysOf(a)[i] == k;
    }
  }

  /** Dropping the head of a sorted item list leaves the sorted items of the
      rest of the dictionary. */
  lemma SortedTail<K, V>(a: seq<(K, V)>, m: map<K, V>, less: (K, K) -> bool)
    requires StrictTotalOrderOn(less, m.Keys)
    requires IsSortedItems(a, m, less) && a != []
    ensures IsSortedItems(a[1..], map k | k in m && k != a[0].0 :: m[k], less)
    ensures StrictTotalOrderOn(less, (map k | k in m && k != a[0].0 :: m[k]).Keys)
  {
    var m' := map k | k in m && k != a[0].0 :: m[k];
    assert m'.Keys <= m.Keys;
    TailAscending(a, less);
    TailEntries(a, m, less);
    TailCovers(a, m, less);
  }

  lemma TailAscending<K, V>(a: seq<(K, V)>, less: (K, K) -> bool)
    requires Ascending(KeysOf(a), less) && a != []
    ensures Ascending(KeysOf(a[1..]), less)
  {
    var t := a[1..];
    assert forall i :: 0 <= i < |t| ==> KeysOf(t)[i] == KeysOf(a)[i + 1];
  }

  lemma TailEntries<K, V>(a: seq<(K, V)>, m: map<K, V>, less: (K, K) -> bool)
    requires StrictTotalOrderOn(less, m.Keys)
    requires IsSortedItems(a, m, less) && a != []
    ensures var m' := map k | k in m && k != a[0].0 :: m[k];
            forall i :: 0 <= i < |a[1..]| ==> a[1..][i].0 in m' && m'[a[1..][i].0] == a[1..][i].1
  {
    var k0 := a[0].0;
    var m' := map k | k in m && k != k0 :: m[k];
    var t := a[1..];
    forall i | 0 <= i < |t|
      ensures t[i].0 in m' && m'[t[i].0] == t[i].1
    {
      assert KeysOf(a)[0] == k0 && KeysOf(a)[i + 1] == t[i].0;
      assert less(k0, t[i].0);
    }
  }

  lemma TailCovers<K, V>(a: seq<(K, V)>, m: map<K, V>, less: (K, K) -> bool)
    requires IsSortedItems(a, m, less) && a != []
    ensures var m' := map k | k in m && k != a[0].0 :: m[k];
            forall k :: k in m' ==> exists i :: 0 <= i < |a[1..]| && a[1..][i].0 == k
  {
    var m' := map k | k in m && k != a[0].0 :: m[k];
    var t := a[1..];
    forall k | k in m'
      ensures exists i :: 0 <= i < |t| && t[i].0 == k
    {
      var i :| 0 <= i < |a| && a[i].0 == k;
      assert i != 0;
      assert t[i - 1].0 == k;
    }
  }
}
