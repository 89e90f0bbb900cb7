/**
 * An IndexedDB object store with an in-line key: its records kept in
 * ascending key order, which is the order `getAll()` and cursors return
 * them in. `AsMap` is the store seen as a dictionary from key to record.
 */
module Stores {
  import opened KeyOrder

  /** Each record's key below the next one's. */
  predicate AscendingBy<V>(key: V -> string, s: seq<V>) {
    |s| <= 1 || (Less(key(s[0]), key(s[1])) && AscendingBy(key, s[1..]))
  }

  /** The keys of the records, in order. */
  function Keys<V>(key: V -> string, s: seq<V>): (r: seq<string>)
    ensures |r| == |s| && forall i :: 0 <= i < |s| ==> r[i] == key(s[i])
  {
    if s == [] then [] else [key(s[0])] + Keys(key, s[1..])
  }

  /** The store as a dictionary from key to record. */
  function AsMap<V>(key: V -> string, s: seq<V>): (m: map<string, V>)
    ensures forall k :: k in m <==> k in Keys(key, s)
  {
    if s == [] then map[] else AsMap(key, s[1..])[key(s[0]) := s[0]]
  }

  /** The first key is below every later one. */
  lemma {:induction false} AscendingFirst<V>(key: V -> string, s: seq<V>)
    requires AscendingBy(key, s)
    ensures forall j :: 0 < j < |s| ==> Less(key(s[0]), key(s[j]))
  {
    if |s| > 1 {
      AscendingFirst(key, s[1..]);
      forall j | 1 < j < |s| ensures Less(key(s[0]), key(s[j])) {
        assert s[1..][j - 1] == s[j];
        LessTransitive(key(s[0]), key(s[1]), key(s[j]));
      }
    }
  }

  /** An ascending store holds each key once. */
  lemma {:induction false} AscendingDistinct<V>(key: V -> string, s: seq<V>)
    requires AscendingBy(key, s)
    ensures forall i, j :: 0 <= i < j < |s| ==> key(s[i]) != key(s[j])
  {
    if s != [] {
      var t := s[1..];
      AscendingDistinct(key, t);
      AscendingFirst(key, s);
      forall i, j | 0 <= i < j < |s| ensures key(s[i]) != key(s[j]) {
        if i == 0 {
          LessIrreflexive(key(s[0]));
        } else {
          assert s[i] == t[i - 1] && s[j] == t[j - 1];
        }
      }
    }
  }

  /** The first key of an ascending store does not recur in the rest of it. */
  lemma FirstKeyNotLater<V>(key: V -> string, s: seq<V>)
    requires s != [] && AscendingBy(key, s)
    ensures key(s[0]) !in AsMap(key, s[1..])
  {
    AscendingDistinct(key, s);
    var t := s[1..];
    forall j | 0 <= j < |t| ensures Keys(key, t)[j] != key(s[0]) {
      assert t[j] == s[j + 1];
    }
  }

  /** In an ascending store each record sits under its key. */
  lemma {:induction false} AscendingLookup<V>(key: V -> string, s: seq<V>)
    requires AscendingBy(key, s)
    ensures forall i :: 0 <= i < |s| ==> AsMap(key, s)[key(s[i])] == s[i]
  {
    if s != [] {
      var t := s[1..];
      AscendingLookup(key, t);
      AscendingDistinct(key, s);
      forall i | 0 < i < |s| ensures AsMap(key, s)[key(s[i])] == s[i] {
        assert t[i - 1] == s[i];
      }
    }
  }

  /** An ascending store has as many keys as records. */
  lemma {:induction false} AscendingSize<V>(key: V -> string, s: seq<V>)
    requires AscendingBy(key, s)
    ensures |AsMap(key, s)| == |s|
  {
    if s != [] {
      AscendingSize(key, s[1..]);
      FirstKeyNotLater(key, s);
    }
  }

  /** An ascending store holds each key once, and each record sits under its key. */
  lemma AscendingFacts<V>(key: V -> string, s: seq<V>)
    requires AscendingBy(key, s)
    ensures forall i, j :: 0 <= i < j < |s| ==> key(s[i]) != key(s[j])
    ensures forall i :: 0 <= i < |s| ==> AsMap(key, s)[key(s[i])] == s[i]
    ensures |AsMap(key, s)| == |s|
  {
    AscendingDistinct(key, s);
    AscendingLookup(key, s);
    AscendingSize(key, s);
  }

  /** Every record of the dictionary is a record of the store, under its own key. */
  lemma {:induction false} AsMapValues<V>(key: V -> string, s: seq<V>)
    ensures forall k :: k in AsMap(key, s) ==> AsMap(key, s)[k] in s && key(AsMap(key, s)[k]) == k
  {
    if s != [] {
      AsMapValues(key, s[1..]);
    }
  }

  /** `put`: replace the record with the same key, or insert it in its place. */
  function Put<V>(key: V -> string, s: seq<V>, v: V): (r: seq<V>)
    ensures r != [] && (r[0] == v || (s != [] && r[0] == s[0]))
    ensures forall x :: x in r ==> x in s || x == v
  {
    if s == [] then [v]
    else if key(s[0]) == key(v) then [v] + s[1..]
    else if Less(key(v), key(s[0])) then [v] + s
    else [s[0]] + Put(key, s[1..], v)
  }

  lemma {:induction false} PutAscending<V>(key: V -> string, s: seq<V>, v: V)
    requires AscendingBy(key, s)
    ensures AscendingBy(key, Put(key, s, v))
  {
    if s != [] && key(s[0]) != key(v) && !Less(key(v), key(s[0])) {
      var t := Put(key, s[1..], v);
      PutAscending(key, s[1..], v);
      assert ([s[0]] + t)[1..] == t;
      LessTotal(key(v), key(s[0]));
      if |s| > 1 && t[0] != v { assert t[0] == s[1]; }
    }
  }

  lemma {:induction false} PutMap<V>(key: V -> string, s: seq<V>, v: V)
    ensures AsMap(key, Put(key, s, v)) == AsMap(key, s)[key(v) := v]
  {
    if s == [] {
    } else if key(s[0]) == key(v) {
      assert ([v] + s[1..])[1..] == s[1..];
      assert AsMap(key, s) == AsMap(key, s[1..])[key(s[0]) := s[0]];
    } else if Less(key(v), key(s[0])) {
      assert ([v] + s)[1..] == s;
    } else {
      var t := Put(key, s[1..], v);
      PutMap(key, s[1..], v);
      assert ([s[0]] + t)[1..] == t;
      var m := AsMap(key, s[1..]);
      assert AsMap(key, Put(key, s, v)) == AsMap(key, t)[key(s[0]) := s[0]];
      UpdateCommute(m, key(v), v, key(s[0]), s[0]);
    }
  }

  /** Updates of two different keys commute. */
  lemma UpdateCommute<V>(m: map<string, V>, k1: string, v1: V, k2: string, v2: V)
    requires k1 != k2
    ensures m[k1 := v1][k2 := v2] == m[k2 := v2][k1 := v1]
  {
  }

  /** `delete`: drop the record with the given key, if any. */
  function Delete<V>(key: V -> string, s: seq<V>, k: string): (r: seq<V>)
    ensures |r| <= |s|
    ensures forall x :: x in r ==> x in s
  {
    if s == [] then []
    else if key(s[0]) == k then Delete(key, s[1..], k)
    else [s[0]] + Delete(key, s[1..], k)
  }

  lemma {:induction false} DeleteAscending<V>(key: V -> string, s: seq<V>, k: string)
    requires AscendingBy(key, s)
    ensures AscendingBy(key, Delete(key, s, k))
  {
    if s != [] {
      var t := Delete(key, s[1..], k);
      DeleteAscending(key, s[1..], k);
      if key(s[0]) != k {
        assert ([s[0]] + t)[1..] == t;
        if t != [] {
          AscendingFirst(key, s);
          assert t[0] in s[1..];
        }
      }
    }
  }

  lemma MapUpdateRemove<V>(m: map<string, V>, a: string, v: V, k: string)
    ensures a != k ==> (m - {k})[a := v] == m[a := v] - {k}
    ensures m[k := v] - {k} == m - {k}
  {
  }

  lemma MapMinusStep<V>(m: map<string, V>, gone: set<string>, k: string)
    ensures m - gone - {k} == m - (gone + {k})
  {
  }

  lemma {:induction false} DeleteMap<V>(key: V -> string, s: seq<V>, k: string)
    ensures AsMap(key, Delete(key, s, k)) == AsMap(key, s) - {k}
  {
    if s != [] {
      var t := Delete(key, s[1..], k);
      DeleteMap(key, s[1..], k);
      var m := AsMap(key, s[1..]);
      assert AsMap(key, s) == m[key(s[0]) := s[0]];
      MapUpdateRemove(m, key(s[0]), s[0], k);
      if key(s[0]) != k {
        assert ([s[0]] + t)[1..] == t;
      }
    }
  }
}
