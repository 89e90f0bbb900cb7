/**
 * Key order of the persistent stores. An IndexedDB object store keeps its
 * records sorted by key, so `getAll()` (and a cursor) yields them in
 * ascending key order. The model keeps, next to each store's map, the
 * sequence of its keys in that order; the functions here maintain it.
 */
module KeyOrder {
  import opened Strings

  /** Strict total order on `K`. */
  ghost predicate StrictTotalOrder<K(!new)>(less: (K, K) -> bool) {
    && (forall a :: !less(a, a))
    && (forall a, b, c :: less(a, b) && less(b, c) ==> less(a, c))
    && (forall a, b :: a != b ==> less(a, b) || less(b, a))
  }

  predicate Sorted<K>(less: (K, K) -> bool, s: seq<K>) {
    forall i, j :: 0 <= i < j < |s| ==> less(s[i], s[j])
  }

  /** IndexedDB's comparison of two string keys: lexicographic on characters. */
  predicate Less(a: string, b: string) {
    if |a| == 0 then |b| > 0
    else if |b| == 0 then false
    else if a[0] != b[0] then a[0] < b[0]
    else Less(a[1..], b[1..])
  }

  lemma {:induction false} LessIrreflexive(a: string)
    ensures !Less(a, a)
  {
    if |a| > 0 { LessIrreflexive(a[1..]); }
  }

  lemma {:induction false} LessTransitive(a: string, b: string, c: string)
    requires Less(a, b) && Less(b, c)
    ensures Less(a, c)
  {
    if |a| > 0 && |b| > 0 && |c| > 0 && a[0] == b[0] && b[0] == c[0] {
      LessTransitive(a[1..], b[1..], c[1..]);
    }
  }

  lemma {:induction false} LessTotal(a: string, b: string)
    requires a != b
    ensures Less(a, b) || Less(b, a)
  {
    if |a| > 0 && |b| > 0 && a[0] == b[0] {
      assert a == [a[0]] + a[1..] && b == [b[0]] + b[1..];
      LessTotal(a[1..], b[1..]);
    }
  }

  lemma StringLessIsOrder()
    ensures StrictTotalOrder(Less)
  {
    forall a ensures !Less(a, a) { LessIrreflexive(a); }
    forall a, b, c | Less(a, b) && Less(b, c) ensures Less(a, c) { LessTransitive(a, b, c); }
    forall a, b | a != b ensures Less(a, b) || Less(b, a) { LessTotal(a, b); }
  }

  /** The empty key sorts before every other key. */
  lemma EmptyIsLeast(order: seq<string>)
    requires Sorted(Less, order) && "" in order
    ensures order[0] == ""
  {
    var i :| 0 <= i < |order| && order[i] == "";
    assert i == 0 || Less(order[0], order[i]);
  }

  lemma SortedNoDup<K(!new)>(less: (K, K) -> bool, s: seq<K>)
    requires StrictTotalOrder(less) && Sorted(less, s)
    ensures forall i, j :: 0 <= i < j < |s| ==> s[i] != s[j]
  {
  }

  /**
   * Each key below its successor. Equivalent to `Sorted` for a strict
   * total order (`AscendingSorted`), but stated pairwise so that the
   * verifier only unfolds it on demand.
   */
  predicate Ascending<K>(less: (K, K) -> bool, s: seq<K>) {
    |s| <= 1 || (less(s[0], s[1]) && Ascending(less, s[1..]))
  }

  lemma {:induction false} AscendingSorted<K(!new)>(less: (K, K) -> bool, s: seq<K>)
    requires StrictTotalOrder(less) && Ascending(less, s)
    ensures Sorted(less, s)
  {
    if |s| > 1 {
      AscendingSorted(less, s[1..]);
      forall j | 0 < j < |s| ensures less(s[0], s[j]) {
        if j > 1 { assert less(s[1], s[j]) by { assert s[1..][0] == s[1] && s[1..][j - 1] == s[j]; } }
      }
    }
  }

  lemma {:induction false} SortedAscending<K>(less: (K, K) -> bool, s: seq<K>)
    requires Sorted(less, s)
    ensures Ascending(less, s)
  {
    if |s| > 1 {
      assert Sorted(less, s[1..]) by {
        forall i, j | 0 <= i < j < |s| - 1 ensures less(s[1..][i], s[1..][j]) {
          assert s[1..][i] == s[i + 1] && s[1..][j] == s[j + 1];
        }
      }
      SortedAscending(less, s[1..]);
    }
  }

  /** `order` lists exactly the keys in `keys`, each below the next. */
  ghost predicate Listing<K(!new)>(less: (K, K) -> bool, order: seq<K>, keys: set<K>) {
    Ascending(less, order) && (forall k :: k in order <==> k in keys)
  }

  /** Putting key `k` into its place (no change when it is already there). */
  function Insert<K(==,!new)>(less: (K, K) -> bool, s: seq<K>, k: K): (r: seq<K>)
    ensures forall x :: x in r <==> x in s || x == k
    ensures k !in s ==> |r| == |s| + 1
  {
    if s == [] then [k]
    else if s[0] == k then s
    else if less(k, s[0]) then [k] + s
    else [s[0]] + Insert(less, s[1..], k)
  }

  lemma {:induction false} InsertSorted<K(!new)>(less: (K, K) -> bool, s: seq<K>, k: K)
    requires StrictTotalOrder(less) && Sorted(less, s)
    ensures Sorted(less, Insert(less, s, k))
  {
    if s != [] && s[0] != k && !less(k, s[0]) {
      InsertSorted(less, s[1..], k);
      var r := Insert(less, s, k);
      var t := Insert(less, s[1..], k);
      assert r == [s[0]] + t;
      assert less(s[0], k);
      forall j | 0 < j < |r| ensures less(r[0], r[j]) {
        assert r[j] in t;
      }
    }
  }

  lemma InsertListing<K(!new)>(less: (K, K) -> bool, s: seq<K>, keys: set<K>, k: K)
    requires StrictTotalOrder(less) && Listing(less, s, keys)
    ensures Listing(less, Insert(less, s, k), keys + {k})
  {
    AscendingSorted(less, s);
    InsertSorted(less, s, k);
    SortedAscending(less, Insert(less, s, k));
  }

  /** The keys of `s` that satisfy `keep`, in the same order. */
  function Filter<K(!new)>(s: seq<K>, keep: K -> bool): (r: seq<K>)
    ensures forall x :: x in r <==> x in s && keep(x)
    ensures |r| <= |s|
  {
    if s == [] then [] else (if keep(s[0]) then [s[0]] else []) + Filter(s[1..], keep)
  }

  lemma {:induction false} FilterSorted<K(!new)>(less: (K, K) -> bool, s: seq<K>, keep: K -> bool)
    requires StrictTotalOrder(less) && Sorted(less, s)
    ensures Sorted(less, Filter(s, keep))
  {
    if s != [] {
      FilterSorted(less, s[1..], keep);
      var t := Filter(s[1..], keep);
      forall j | 0 <= j < |t| ensures less(s[0], t[j]) { assert t[j] in s[1..]; }
    }
  }

  lemma RemoveListing<K(!new)>(less: (K, K) -> bool, s: seq<K>, keys: set<K>, k: K)
    requires StrictTotalOrder(less) && Listing(less, s, keys)
    ensures Listing(less, Filter(s, x => x != k), keys - {k})
  {
    AscendingSorted(less, s);
    FilterSorted(less, s, x => x != k);
    SortedAscending(less, Filter(s, x => x != k));
  }

  /** A sorted listing of a key set has exactly one entry per key. */
  lemma {:induction false} InOrderLength<K(!new)>(less: (K, K) -> bool, order: seq<K>, keys: set<K>)
    requires StrictTotalOrder(less) && Sorted(less, order) && (forall k :: k in order <==> k in keys)
    ensures |order| == |keys|
  {
    if order != [] {
      var rest := order[1..];
      assert order[0] !in rest;
      InOrderLength(less, rest, keys - {order[0]});
    } else {
      assert keys == {};
    }
  }
}
