/**
 * `StreamingServiceDB`: the extension's IndexedDB database with its four
 * object stores, each held as its records in ascending key order.
 */
module Registry {
  import opened Wrappers
  import opened Strings
  import opened JsValues
  import opened KeyOrder
  import opened Stores
  import opened Services
  import opened Catalog
  import opened Hashing

  /** The in-line keys of the four stores. */
  function DomainOf(r: ServiceRecord): string { r.domain }
  function IdOf(e: ContentEntry): string { e.id }
  function KeyOf(p: Preference): string { p.key }

  // ---------------------------------------------------------------- the content store's lastWatched index

  /** An entry of the `lastWatched` index: ordered by watch time, then by primary key. */
  datatype IndexKey = IndexKey(lastWatched: int, id: string)

  predicate IndexLess(a: IndexKey, b: IndexKey) {
    a.lastWatched < b.lastWatched || (a.lastWatched == b.lastWatched && Less(a.id, b.id))
  }

  lemma IndexLessIsOrder()
    ensures StrictTotalOrder(IndexLess)
  {
    StringLessIsOrder();
  }

  function WatchKey(e: ContentEntry): IndexKey {
    IndexKey(e.lastWatched, e.id)
  }

  /** No entry of `s` sorts before an earlier one in the `lastWatched` index. */
  predicate WatchOrdered(s: seq<ContentEntry>) {
    forall i, j :: 0 <= i < j < |s| ==> !IndexLess(WatchKey(s[j]), WatchKey(s[i]))
  }

  function InsertByWatch(sorted: seq<ContentEntry>, e: ContentEntry): (r: seq<ContentEntry>)
    ensures |r| == |sorted| + 1
    ensures multiset(r) == multiset(sorted) + multiset{e}
  {
    if sorted == [] then [e]
    else if IndexLess(WatchKey(e), WatchKey(sorted[0])) then [e] + sorted
    else
      assert sorted == [sorted[0]] + sorted[1..];
      [sorted[0]] + InsertByWatch(sorted[1..], e)
  }

  /** Two consecutive index steps make one (stated without a precondition, so callers need no case split). */
  lemma IndexLessChain(a: IndexKey, b: IndexKey, c: IndexKey)
    ensures IndexLess(a, b) && IndexLess(b, c) ==> IndexLess(a, c)
    ensures !IndexLess(a, a)
  {
    LessIrreflexive(a.id);
    if IndexLess(a, b) && IndexLess(b, c) && a.lastWatched == b.lastWatched == c.lastWatched {
      LessTransitive(a.id, b.id, c.id);
    }
  }

  /** Putting an entry in front of an ordered index keeps it ordered when no later entry sorts before it. */
  lemma ConsOrdered(h: ContentEntry, t: seq<ContentEntry>)
    requires WatchOrdered(t)
    requires forall j :: 0 <= j < |t| ==> !IndexLess(WatchKey(t[j]), WatchKey(h))
    ensures WatchOrdered([h] + t)
  {
    var r := [h] + t;
    forall i, j | 0 <= i < j < |r| ensures !IndexLess(WatchKey(r[j]), WatchKey(r[i])) {
      assert r[j] == t[j - 1];
      if i > 0 { assert r[i] == t[i - 1]; }
    }
  }

  lemma {:induction false} InsertByWatchOrdered(sorted: seq<ContentEntry>, e: ContentEntry)
    requires WatchOrdered(sorted)
    ensures WatchOrdered(InsertByWatch(sorted, e))
  {
    if sorted == [] {
      ConsOrdered(e, []);
    } else if IndexLess(WatchKey(e), WatchKey(sorted[0])) {
      forall j | 0 <= j < |sorted| ensures !IndexLess(WatchKey(sorted[j]), WatchKey(e)) {
        IndexLessChain(WatchKey(sorted[j]), WatchKey(e), WatchKey(sorted[0]));
      }
      ConsOrdered(e, sorted);
    } else {
      var t := InsertByWatch(sorted[1..], e);
      InsertByWatchOrdered(sorted[1..], e);
      forall j | 0 <= j < |t| ensures !IndexLess(WatchKey(t[j]), WatchKey(sorted[0])) {
        assert t[j] in multiset(t);
      }
      ConsOrdered(sorted[0], t);
    }
  }



  /** The content store as the `lastWatched` index lists it. */
  function ByWatchTime(s: seq<ContentEntry>): (r: seq<ContentEntry>)
    ensures |r| == |s| && multiset(r) == multiset(s)
  {
    if s == [] then []
    else
      var init := s[..|s| - 1];
      assert s == init + [s[|s| - 1]];
      InsertByWatch(ByWatchTime(init), s[|s| - 1])
  }

  /** The index is in `lastWatched` order, ties broken by id. */
  lemma {:induction false} ByWatchTimeOrdered(s: seq<ContentEntry>)
    ensures WatchOrdered(ByWatchTime(s))
  {
    if s != [] {
      var init := s[..|s| - 1];
      ByWatchTimeOrdered(init);
      InsertByWatchOrdered(ByWatchTime(init), s[|s| - 1]);
    }
  }

  /** Reading the index forwards, watch times never decrease. */
  lemma ByWatchTimeMonotone(s: seq<ContentEntry>)
    ensures forall i, j :: 0 <= i < j < |s| ==> ByWatchTime(s)[i].lastWatched <= ByWatchTime(s)[j].lastWatched
  {
    var index := ByWatchTime(s);
    ByWatchTimeOrdered(s);
    forall i, j | 0 <= i < j < |s| ensures index[i].lastWatched <= index[j].lastWatched {
      assert !IndexLess(WatchKey(index[j]), WatchKey(index[i]));
    }
  }

  /** What `getRecentContent(limit)` collects: the index read from its end, at most `limit` entries. */
  function Recent(s: seq<ContentEntry>, limit: int): (r: seq<ContentEntry>)
    ensures |r| == Min(if limit < 0 then 0 else limit, |s|)
  {
    var index := ByWatchTime(s);
    var k := Min(if limit < 0 then 0 else limit, |s|);
    seq(k, i requires 0 <= i < k => index[|s| - 1 - i])
  }

  /** The entries come newest first. */
  lemma RecentDescending(s: seq<ContentEntry>, limit: int)
    ensures forall i, j :: 0 <= i < j < |Recent(s, limit)| ==> Recent(s, limit)[i].lastWatched >= Recent(s, limit)[j].lastWatched
  {
    var r, index := Recent(s, limit), ByWatchTime(s);
    ByWatchTimeMonotone(s);
    forall i, j | 0 <= i < j < |r| ensures r[i].lastWatched >= r[j].lastWatched {
      assert index[|s| - 1 - j].lastWatched <= index[|s| - 1 - i].lastWatched;
    }
  }

  /** Every entry of the store is returned, or is no newer than every returned one. */
  lemma RecentAreNewest(s: seq<ContentEntry>, limit: int, e: ContentEntry)
    requires e in s && e !in Recent(s, limit)
    ensures forall i :: 0 <= i < |Recent(s, limit)| ==> e.lastWatched <= Recent(s, limit)[i].lastWatched
  {
    var r, index := Recent(s, limit), ByWatchTime(s);
    assert e in multiset(index);
    var p :| 0 <= p < |index| && index[p] == e;
    forall k | |s| - |r| <= k < |s| ensures index[k] != e {
      assert index[k] == r[|s| - 1 - k];
    }
    ByWatchTimeMonotone(s);
    forall i | 0 <= i < |r| ensures e.lastWatched <= r[i].lastWatched {
      assert index[p].lastWatched <= index[|s| - 1 - i].lastWatched;
    }
  }

  lemma {:induction false} ReverseMultiset<T>(s: seq<T>, r: seq<T>)
    requires |r| == |s| && forall i :: 0 <= i < |s| ==> r[i] == s[|s| - 1 - i]
    ensures multiset(r) == multiset(s)
  {
    if s != [] {
      var s', r' := s[1..], r[..|r| - 1];
      ReverseMultiset(s', r');
      assert s == [s[0]] + s';
      assert r == r' + [s[0]];
    }
  }

  /** With a limit at least the store's size, every entry is returned. */
  lemma RecentAll(s: seq<ContentEntry>, limit: int)
    requires limit >= |s|
    ensures multiset(Recent(s, limit)) == multiset(s)
  {
    var r, index := Recent(s, limit), ByWatchTime(s);
    ReverseMultiset(index, r);
  }

  // ---------------------------------------------------------------- lookup

  /** The substring test of `getServiceInfo`: either domain string contains the other. */
  predicate Overlaps(needle: string, domain: string) {
    Contains(needle, domain) || Contains(domain, needle)
  }

  /** `all.find(...)`: the position of the first record, in key order, that overlaps the needle. */
  function FirstOverlap(recs: seq<ServiceRecord>, needle: string): (r: Option<nat>)
    ensures r.Some? ==> r.value < |recs| && Overlaps(needle, recs[r.value].domain)
    ensures r.Some? ==> forall j :: 0 <= j < r.value ==> !Overlaps(needle, recs[j].domain)
    ensures r.None? ==> forall j :: 0 <= j < |recs| ==> !Overlaps(needle, recs[j].domain)
  {
    if recs == [] then None
    else if Overlaps(needle, recs[0].domain) then Some(0)
    else match FirstOverlap(recs[1..], needle)
      case None => None
      case Some(i) => Some(i + 1)
  }

  /** One store's part of `getServiceInfo`: the exact key, else the first overlapping record. */
  function StoreLookup(recs: seq<ServiceRecord>, needle: string): (r: Option<ServiceRecord>)
    ensures needle in AsMap(DomainOf, recs) ==> r == Some(AsMap(DomainOf, recs)[needle])
    ensures needle !in AsMap(DomainOf, recs) && r.Some? ==>
      exists i :: 0 <= i < |recs| && r.value == recs[i] && Overlaps(needle, recs[i].domain)
        && forall j :: 0 <= j < i ==> !Overlaps(needle, recs[j].domain)
    ensures r.None? ==> needle !in AsMap(DomainOf, recs) && forall j :: 0 <= j < |recs| ==> !Overlaps(needle, recs[j].domain)
    ensures r.Some? ==> r.value in recs && Overlaps(needle, r.value.domain)
  {
    var m := AsMap(DomainOf, recs);
    AsMapValues(DomainOf, recs);
    ContainsSelf(needle);
    if needle in m then Some(m[needle])
    else match FirstOverlap(recs, needle)
      case None => None
      case Some(i) => Some(recs[i])
  }

  // ---------------------------------------------------------------- seeding

  /** The store after the first `n` `put`s of the seeding loop over `entries`. */
  function SeedStore(m: map<string, ServiceRecord>, entries: seq<CatalogEntry>, n: nat, now: int): map<string, ServiceRecord>
    requires n <= |entries|
  {
    if n == 0 then m
    else SeedStore(m, entries, n - 1, now)[entries[n - 1].domain := Stamp(entries[n - 1], now)]
  }

  ghost function EntryDomains(entries: seq<CatalogEntry>, n: nat): set<string>
    requires n <= |entries|
  {
    set i | 0 <= i < n :: entries[i].domain
  }

  ghost predicate DistinctDomains(entries: seq<CatalogEntry>) {
    forall i, j :: 0 <= i < j < |entries| ==> entries[i].domain != entries[j].domain
  }

  lemma {:induction false} SeedStoreKeys(m: map<string, ServiceRecord>, entries: seq<CatalogEntry>, n: nat, now: int)
    requires n <= |entries|
    ensures SeedStore(m, entries, n, now).Keys == m.Keys + EntryDomains(entries, n)
  {
    if n > 0 {
      SeedStoreKeys(m, entries, n - 1, now);
      assert EntryDomains(entries, n) == EntryDomains(entries, n - 1) + {entries[n - 1].domain};
    }
  }

  lemma {:induction false} SeedStoreStamped(m: map<string, ServiceRecord>, entries: seq<CatalogEntry>, n: nat, now: int)
    requires n <= |entries| && DistinctDomains(entries)
    ensures forall i :: 0 <= i < n ==>
      entries[i].domain in SeedStore(m, entries, n, now) && SeedStore(m, entries, n, now)[entries[i].domain] == Stamp(entries[i], now)
  {
    if n > 0 {
      SeedStoreStamped(m, entries, n - 1, now);
      SeedStoreKeys(m, entries, n - 1, now);
      forall i | 0 <= i < n - 1 ensures SeedStore(m, entries, n, now)[entries[i].domain] == Stamp(entries[i], now) {
        assert entries[i].domain != entries[n - 1].domain;
      }
    }
  }

  lemma {:induction false} SeedStoreKeeps(m: map<string, ServiceRecord>, entries: seq<CatalogEntry>, n: nat, now: int)
    requires n <= |entries|
    ensures forall k :: k in m && k !in EntryDomains(entries, n) ==>
      k in SeedStore(m, entries, n, now) && SeedStore(m, entries, n, now)[k] == m[k]
  {
    if n > 0 {
      SeedStoreKeeps(m, entries, n - 1, now);
      SeedStoreKeys(m, entries, n - 1, now);
      assert EntryDomains(entries, n) == EntryDomains(entries, n - 1) + {entries[n - 1].domain};
    }
  }

  /** After seeding, the store holds the old keys and the catalog's, every catalog record stamped. */
  lemma SeedStoreContents(m: map<string, ServiceRecord>, entries: seq<CatalogEntry>, n: nat, now: int)
    requires n <= |entries| && DistinctDomains(entries)
    ensures SeedStore(m, entries, n, now).Keys == m.Keys + EntryDomains(entries, n)
    ensures forall i :: 0 <= i < n ==> SeedStore(m, entries, n, now)[entries[i].domain] == Stamp(entries[i], now)
    ensures forall k :: k in m && k !in EntryDomains(entries, n) ==> SeedStore(m, entries, n, now)[k] == m[k]
  {
    SeedStoreKeys(m, entries, n, now);
    SeedStoreStamped(m, entries, n, now);
    SeedStoreKeeps(m, entries, n, now);
  }

  /**
   * Seeding is an upsert: every catalog domain holds its catalog record,
   * every other record is kept, and seeding again at the same time changes
   * nothing (at another time, only the `addedDate`s).
   */
  lemma SeedIdempotent(m: map<string, ServiceRecord>, entries: seq<CatalogEntry>, t1: int, t2: int)
    requires DistinctDomains(entries)
    ensures var once := SeedStore(m, entries, |entries|, t1);
      && SeedStore(once, entries, |entries|, t2).Keys == once.Keys
      && SeedStore(once, entries, |entries|, t1) == once
  {
    var n := |entries|;
    var once := SeedStore(m, entries, n, t1);
    SeedStoreContents(m, entries, n, t1);
    SeedStoreContents(once, entries, n, t1);
    SeedStoreContents(once, entries, n, t2);
    var twice := SeedStore(once, entries, n, t1);
    forall k | k in once ensures twice[k] == once[k] {
      if k in EntryDomains(entries, n) {
        var i :| 0 <= i < n && entries[i].domain == k;
      }
    }
  }

  lemma CatalogDistinct()
    ensures DistinctDomains(KnownServices)
  {
    CatalogDomainsDistinct();
  }

  // ---------------------------------------------------------------- statistics

  /** A row of `getServiceStats`. */
  datatype StatRow = StatRow(
    domain: string, name: string, category: string,
    contentCount: nat, totalWatchTime: nat, lastUsed: Option<int>)

  function Domains(recs: seq<ServiceRecord>): (r: seq<string>)
    ensures |r| == |recs| && forall i :: 0 <= i < |recs| ==> r[i] == recs[i].domain
  {
    seq(|recs|, i requires 0 <= i < |recs| => recs[i].domain)
  }

  lemma DomainsAppend(a: seq<ServiceRecord>, b: seq<ServiceRecord>)
    ensures Domains(a + b) == Domains(a) + Domains(b)
  {
  }

  lemma DomainsSnoc(recs: seq<ServiceRecord>, s: ServiceRecord)
    ensures Domains(recs + [s]) == Domains(recs) + [s.domain]
  {
  }

  lemma DedupStep(prefix: seq<string>, xs: seq<string>, i: nat)
    requires i < |xs|
    ensures Dedup(prefix + xs[..i + 1])
      == if xs[i] in Dedup(prefix + xs[..i]) then Dedup(prefix + xs[..i]) else Dedup(prefix + xs[..i]) + [xs[i]]
  {
    assert prefix + xs[..i + 1] == (prefix + xs[..i]) + [xs[i]];
    DedupSnoc(prefix + xs[..i], xs[i]);
  }

  /** One `forEach` of `getAllDomains`: each element of `xs` not yet collected is appended. */
  method AddNew(prefix: seq<string>, xs: seq<string>, collected: seq<string>) returns (r: seq<string>)
    requires collected == Dedup(prefix)
    ensures r == Dedup(prefix + xs)
  {
    r := collected;
    assert prefix + xs[..0] == prefix;
    for i := 0 to |xs|
      invariant r == Dedup(prefix + xs[..i])
    {
      DedupStep(prefix, xs, i);
      if xs[i] !in r {
        r := r + [xs[i]];
      }
    }
    assert prefix + xs[..|xs|] == prefix + xs;
  }

  /** The first record of every domain, in order: the rows `stats` is initialised with. */
  function FirstPerDomain(recs: seq<ServiceRecord>): (r: seq<ServiceRecord>)
    ensures NoDup(Domains(r))
    ensures forall d :: d in Domains(r) <==> d in Domains(recs)
    ensures forall x :: x in r ==> x in recs
  {
    if recs == [] then []
    else
      var rest := FirstPerDomain(recs[..|recs| - 1]);
      var last := recs[|recs| - 1];
      assert forall d :: d in Domains(recs) <==> d in Domains(recs[..|recs| - 1]) || d == last.domain;
      if last.domain in Domains(rest) then rest
      else
        assert Domains(rest + [last]) == Domains(rest) + [last.domain];
        rest + [last]
  }

  /** Number of watched items for a domain. */
  function CountFor(items: seq<ContentEntry>, d: string): (n: nat)
    ensures n <= |items|
    ensures n == 0 <==> forall i :: 0 <= i < |items| ==> items[i].domain != d
  {
    if items == [] then 0
    else
      var init := items[..|items| - 1];
      assert forall i :: 0 <= i < |init| ==> init[i] == items[i];
      CountFor(init, d) + (if items[|items| - 1].domain == d then 1 else 0)
  }

  /** Sum of the durations of a domain's items. */
  function WatchTimeFor(items: seq<ContentEntry>, d: string): nat {
    if items == [] then 0
    else WatchTimeFor(items[..|items| - 1], d) + (if items[|items| - 1].domain == d then items[|items| - 1].duration else 0)
  }

  /** Latest `lastWatched` among a domain's items. */
  function LastUsedFor(items: seq<ContentEntry>, d: string): (r: Option<int>)
    ensures r.None? <==> CountFor(items, d) == 0
    ensures r.Some? ==> exists i :: 0 <= i < |items| && items[i].domain == d && items[i].lastWatched == r.value
    ensures r.Some? ==> forall i :: 0 <= i < |items| && items[i].domain == d ==> items[i].lastWatched <= r.value
  {
    if items == [] then None
    else
      var init := items[..|items| - 1];
      var prev := LastUsedFor(init, d);
      var it := items[|items| - 1];
      assert forall i :: 0 <= i < |init| ==> init[i] == items[i];
      if it.domain != d then prev
      else if prev.None? || it.lastWatched > prev.value then
        assert items[|items| - 1] == it;
        Some(it.lastWatched)
      else prev
  }

  function RowFor(s: ServiceRecord, items: seq<ContentEntry>): StatRow {
    StatRow(s.domain, s.name, s.category, CountFor(items, s.domain), WatchTimeFor(items, s.domain), LastUsedFor(items, s.domain))
  }

  /** One watched item added to a row of its domain. */
  function Tally(row: StatRow, item: ContentEntry): (r: StatRow)
    ensures r.contentCount == row.contentCount + 1
  {
    row.(contentCount := row.contentCount + 1,
         totalWatchTime := row.totalWatchTime + item.duration,
         lastUsed := if row.lastUsed.None? || item.lastWatched > row.lastUsed.value then Some(item.lastWatched) else row.lastUsed)
  }

  /** Tallying item by item gives the row computed over all items. */
  lemma RowForSnoc(s: ServiceRecord, items: seq<ContentEntry>, it: ContentEntry)
    ensures RowFor(s, items + [it]) == if it.domain == s.domain then Tally(RowFor(s, items), it) else RowFor(s, items)
  {
    assert (items + [it])[..|items|] == items;
  }

  lemma FirstPerDomainSnoc(recs: seq<ServiceRecord>, s: ServiceRecord)
    ensures FirstPerDomain(recs + [s]) ==
      if s.domain in Domains(FirstPerDomain(recs)) then FirstPerDomain(recs) else FirstPerDomain(recs) + [s]
  {
    assert (recs + [s])[..|recs|] == recs;
  }

  lemma FirstPerDomainStep(recs: seq<ServiceRecord>, i: nat)
    requires i < |recs|
    ensures FirstPerDomain(recs[..i + 1]) ==
      if recs[i].domain in Domains(FirstPerDomain(recs[..i])) then FirstPerDomain(recs[..i])
      else FirstPerDomain(recs[..i]) + [recs[i]]
    ensures Domains(FirstPerDomain(recs[..i]) + [recs[i]]) == Domains(FirstPerDomain(recs[..i])) + [recs[i].domain]
  {
    assert recs[..i + 1] == recs[..i] + [recs[i]];
    FirstPerDomainSnoc(recs[..i], recs[i]);
    DomainsSnoc(FirstPerDomain(recs[..i]), recs[i]);
  }

  /** The rows before sorting: one per distinct service domain, tallied over the content. */
  function StatsRows(recs: seq<ServiceRecord>, items: seq<ContentEntry>): (r: seq<StatRow>)
    ensures |r| == |FirstPerDomain(recs)|
  {
    var f := FirstPerDomain(recs);
    seq(|f|, i requires 0 <= i < |f| => RowFor(f[i], items))
  }

  predicate CountDescending(rows: seq<StatRow>) {
    forall i, j :: 0 <= i < j < |rows| ==> rows[i].contentCount >= rows[j].contentCount
  }

  /** Places `x` after every row counting at least as much, so equal counts keep their order. */
  function InsertByCount(sorted: seq<StatRow>, x: StatRow): (r: seq<StatRow>)
    ensures multiset(r) == multiset(sorted) + multiset{x}
  {
    if sorted == [] then [x]
    else if x.contentCount > sorted[0].contentCount then [x] + sorted
    else
      assert sorted == [sorted[0]] + sorted[1..];
      [sorted[0]] + InsertByCount(sorted[1..], x)
  }

  /** A row in front of a descending list keeps it descending when it counts at least as much as every later row. */
  lemma ConsDescending(h: StatRow, t: seq<StatRow>)
    requires CountDescending(t)
    requires forall j :: 0 <= j < |t| ==> t[j].contentCount <= h.contentCount
    ensures CountDescending([h] + t)
  {
    var r := [h] + t;
    forall i, j | 0 <= i < j < |r| ensures r[i].contentCount >= r[j].contentCount {
      assert r[j] == t[j - 1];
      if i > 0 { assert r[i] == t[i - 1]; }
    }
  }

  lemma {:induction false} InsertByCountDescending(sorted: seq<StatRow>, x: StatRow)
    requires CountDescending(sorted)
    ensures CountDescending(InsertByCount(sorted, x))
  {
    if sorted == [] {
      ConsDescending(x, []);
    } else if x.contentCount > sorted[0].contentCount {
      ConsDescending(x, sorted);
    } else {
      var t := InsertByCount(sorted[1..], x);
      InsertByCountDescending(sorted[1..], x);
      forall j | 0 <= j < |t| ensures t[j].contentCount <= sorted[0].contentCount {
        assert t[j] in multiset(t);
      }
      ConsDescending(sorted[0], t);
    }
  }


  /** `rows.sort((a, b) => b.contentCount - a.contentCount)`: most watched first, the same rows. */
  function SortByCount(rows: seq<StatRow>): (r: seq<StatRow>)
    ensures CountDescending(r)
    ensures multiset(r) == multiset(rows)
  {
    if rows == [] then []
    else
      var init := rows[..|rows| - 1];
      assert rows == init + [rows[|rows| - 1]];
      InsertByCountDescending(SortByCount(init), rows[|rows| - 1]);
      InsertByCount(SortByCount(init), rows[|rows| - 1])
  }

  /** The rows counting exactly `c`, in their order: what a stable sort must not reorder. */
  function WithCount(rows: seq<StatRow>, c: nat): seq<StatRow> {
    if rows == [] then []
    else (if rows[0].contentCount == c then [rows[0]] else []) + WithCount(rows[1..], c)
  }

  lemma {:induction false} WithCountAppend(a: seq<StatRow>, b: seq<StatRow>, c: nat)
    ensures WithCount(a + b, c) == WithCount(a, c) + WithCount(b, c)
  {
    if a == [] {
      assert a + b == b;
    } else {
      var h := if a[0].contentCount == c then [a[0]] else [];
      assert (a + b)[0] == a[0];
      assert (a + b)[1..] == a[1..] + b;
      calc {
        WithCount(a + b, c);
        h + WithCount(a[1..] + b, c);
        { WithCountAppend(a[1..], b, c); }
        h + (WithCount(a[1..], c) + WithCount(b, c));
        (h + WithCount(a[1..], c)) + WithCount(b, c);
        WithCount(a, c) + WithCount(b, c);
      }
    }
  }

  lemma {:induction false} WithCountNone(rows: seq<StatRow>, c: nat)
    requires forall j :: 0 <= j < |rows| ==> rows[j].contentCount < c
    ensures WithCount(rows, c) == []
  {
    if rows != [] {
      WithCountNone(rows[1..], c);
    }
  }

  /** A row counting more than every other row goes in front, ahead of no row of its own count. */
  lemma InsertInFront(sorted: seq<StatRow>, x: StatRow, c: nat)
    requires CountDescending(sorted) && sorted != [] && x.contentCount > sorted[0].contentCount
    ensures WithCount([x] + sorted, c) == WithCount(sorted, c) + (if x.contentCount == c then [x] else [])
  {
    assert ([x] + sorted)[1..] == sorted;
    if x.contentCount == c {
      forall j | 0 <= j < |sorted| ensures sorted[j].contentCount < c {
        assert sorted[0].contentCount >= sorted[j].contentCount;
      }
      WithCountNone(sorted, c);
    }
  }

  /** Inserting a row puts it after every row of its own count. */
  lemma {:induction false} InsertByCountStable(sorted: seq<StatRow>, x: StatRow, c: nat)
    requires CountDescending(sorted)
    ensures WithCount(InsertByCount(sorted, x), c) ==
      WithCount(sorted, c) + (if x.contentCount == c then [x] else [])
  {
    var tail := if x.contentCount == c then [x] else [];
    assert WithCount([x], c) == tail by {
      assert [x][1..] == [];
    }
    if sorted == [] {
      assert InsertByCount(sorted, x) == [x];
    } else if x.contentCount > sorted[0].contentCount {
      assert InsertByCount(sorted, x) == [x] + sorted;
      InsertInFront(sorted, x, c);
    } else {
      var h := if sorted[0].contentCount == c then [sorted[0]] else [];
      var t := InsertByCount(sorted[1..], x);
      assert InsertByCount(sorted, x) == [sorted[0]] + t;
      assert ([sorted[0]] + t)[0] == sorted[0] && ([sorted[0]] + t)[1..] == t;
      assert CountDescending(sorted[1..]);
      calc {
        WithCount([sorted[0]] + t, c);
        h + WithCount(t, c);
        { InsertByCountStable(sorted[1..], x, c); }
        h + (WithCount(sorted[1..], c) + tail);
        (h + WithCount(sorted[1..], c)) + tail;
        WithCount(sorted, c) + tail;
      }
    }
  }

  /** The sort is stable: the rows of every count keep their order. */
  lemma {:induction false} SortByCountStable(rows: seq<StatRow>, c: nat)
    ensures WithCount(SortByCount(rows), c) == WithCount(rows, c)
  {
    if rows != [] {
      var init := rows[..|rows| - 1];
      var last := rows[|rows| - 1];
      var tail := if last.contentCount == c then [last] else [];
      assert rows == init + [last];
      assert WithCount([last], c) == tail by {
        assert [last][1..] == [];
      }
      calc {
        WithCount(SortByCount(rows), c);
        WithCount(InsertByCount(SortByCount(init), last), c);
        { InsertByCountStable(SortByCount(init), last, c); }
        WithCount(SortByCount(init), c) + tail;
        { SortByCountStable(init, c); }
        WithCount(init, c) + tail;
        { WithCountAppend(init, [last], c); }
        WithCount(rows, c);
      }
    }
  }

  lemma {:induction false} InsertByCountLast(sorted: seq<StatRow>, x: StatRow)
    requires forall j :: 0 <= j < |sorted| ==> x.contentCount <= sorted[j].contentCount
    ensures InsertByCount(sorted, x) == sorted + [x]
  {
    if sorted != [] {
      InsertByCountLast(sorted[1..], x);
      assert sorted == [sorted[0]] + sorted[1..];
    }
  }

  /** Rows already most watched first, ties included, come back as they are. */
  lemma {:induction false} SortByCountOfSorted(rows: seq<StatRow>)
    requires CountDescending(rows)
    ensures SortByCount(rows) == rows
  {
    if rows != [] {
      var init := rows[..|rows| - 1];
      assert rows == init + [rows[|rows| - 1]];
      assert CountDescending(init);
      SortByCountOfSorted(init);
      InsertByCountLast(init, rows[|rows| - 1]);
    }
  }

  // ---------------------------------------------------------------- results of the read operations

  datatype AllServices = AllServices(known: seq<ServiceRecord>, discovered: seq<ServiceRecord>, total: nat)

  /** `exportData`'s dump; the ISO-8601 rendering of the timestamp is not modelled. */
  datatype Snapshot = Snapshot(
    timestamp: int, version: nat, services: AllServices,
    content: seq<ContentEntry>, preferences: seq<Preference>)

  /** `cleanup`'s cutoff: `daysToKeep` days (of 24 * 60 * 60 * 1000 ms) before `now`. */
  function Cutoff(now: int, daysToKeep: int): int {
    now - daysToKeep * 86_400_000
  }

  /** The discovered store after `cleanup`'s purge. */
  function PurgeStore(store: map<string, ServiceRecord>, cutoff: int): (r: map<string, ServiceRecord>)
    ensures forall k :: k in r <==> k in store && !Purgeable(store[k], cutoff)
    ensures forall k :: k in r ==> r[k] == store[k]
  {
    map k | k in store && !Purgeable(store[k], cutoff) :: store[k]
  }

  /** The discovered store after `cleanup` has visited the first `n` records of its snapshot `all`. */
  function PurgeFirst(m: map<string, ServiceRecord>, all: seq<ServiceRecord>, n: nat, cutoff: int): map<string, ServiceRecord>
    requires n <= |all|
  {
    if n == 0 then m
    else if Purgeable(all[n - 1], cutoff) then PurgeFirst(m, all, n - 1, cutoff) - {all[n - 1].domain}
    else PurgeFirst(m, all, n - 1, cutoff)
  }

  /** The keys of the records among the first `n` of `all` that `cleanup` deletes. */
  ghost function PurgedUpTo(all: seq<ServiceRecord>, n: nat, cutoff: int): set<string>
    requires n <= |all|
  {
    set j | 0 <= j < n && Purgeable(all[j], cutoff) :: all[j].domain
  }

  lemma {:induction false} PurgeFirstRemoves(m: map<string, ServiceRecord>, all: seq<ServiceRecord>, n: nat, cutoff: int)
    requires n <= |all|
    ensures PurgeFirst(m, all, n, cutoff) == m - PurgedUpTo(all, n, cutoff)
  {
    if n > 0 {
      PurgeFirstRemoves(m, all, n - 1, cutoff);
      if Purgeable(all[n - 1], cutoff) {
        assert PurgedUpTo(all, n, cutoff) == PurgedUpTo(all, n - 1, cutoff) + {all[n - 1].domain};
      } else {
        assert PurgedUpTo(all, n, cutoff) == PurgedUpTo(all, n - 1, cutoff);
      }
    }
  }

  /** In a store listed by `all`, every visited key to delete is a purgeable record of the store. */
  lemma PurgedArePurgeable(m: map<string, ServiceRecord>, all: seq<ServiceRecord>, cutoff: int)
    requires AscendingBy(DomainOf, all) && m == AsMap(DomainOf, all)
    ensures forall k :: k in PurgedUpTo(all, |all|, cutoff) ==> k in m && Purgeable(m[k], cutoff)
  {
    AscendingFacts(DomainOf, all);
    forall k | k in PurgedUpTo(all, |all|, cutoff) ensures k in m && Purgeable(m[k], cutoff) {
      var j :| 0 <= j < |all| && Purgeable(all[j], cutoff) && all[j].domain == k;
      assert m[k] == all[j];
    }
  }

  /** In a store listed by `all`, every purgeable record is among the visited keys to delete. */
  lemma PurgeableArePurged(m: map<string, ServiceRecord>, all: seq<ServiceRecord>, cutoff: int)
    requires AscendingBy(DomainOf, all) && m == AsMap(DomainOf, all)
    ensures forall k :: k in m && Purgeable(m[k], cutoff) ==> k in PurgedUpTo(all, |all|, cutoff)
  {
    AscendingFacts(DomainOf, all);
    forall k | k in m && Purgeable(m[k], cutoff) ensures k in PurgedUpTo(all, |all|, cutoff) {
      var j :| 0 <= j < |all| && Keys(DomainOf, all)[j] == k;
      assert m[k] == all[j];
    }
  }

  /** Visiting the whole snapshot of a store leaves exactly the records `cleanup` keeps. */
  lemma PurgeFirstAll(m: map<string, ServiceRecord>, all: seq<ServiceRecord>, cutoff: int)
    requires AscendingBy(DomainOf, all) && m == AsMap(DomainOf, all)
    ensures PurgeFirst(m, all, |all|, cutoff) == PurgeStore(m, cutoff)
  {
    PurgeFirstRemoves(m, all, |all|, cutoff);
    PurgedArePurgeable(m, all, cutoff);
    PurgeableArePurged(m, all, cutoff);
    RemovingPurgeable(m, PurgedUpTo(all, |all|, cutoff), cutoff);
  }

  /** Removing exactly the purgeable keys is the purge. */
  lemma RemovingPurgeable(m: map<string, ServiceRecord>, gone: set<string>, cutoff: int)
    requires forall k :: k in gone ==> k in m && Purgeable(m[k], cutoff)
    requires forall k :: k in m && Purgeable(m[k], cutoff) ==> k in gone
    ensures m - gone == PurgeStore(m, cutoff)
  {
    var r, p := m - gone, PurgeStore(m, cutoff);
    assert r.Keys == p.Keys;
    assert r == p;
  }

  function ContentId(data: WatchData, now: int): string {
    data.serviceName + "_" + HashText(data.title) + "_" + IntToString(now)
  }

  function NewContent(data: WatchData, now: int): (e: ContentEntry)
    ensures e.id == ContentId(data, now) && e.lastWatched == now && e.watchCount == 1
  {
    ContentEntry(ContentId(data, now), data.domain, data.title, data.url,
      data.duration, data.currentTime, data.kind, now, 1)
  }

  // ---------------------------------------------------------------- the two service stores

  /** `streamingServices`: in key order, every record a catalog entry. */
  predicate KnownStore(s: seq<ServiceRecord>) {
    AscendingBy(DomainOf, s) && forall r :: r in s ==> r.origin.Known?
  }

  /** `discoveredServices`: in key order, every record a discovered one. */
  predicate DiscoveredStore(s: seq<ServiceRecord>) {
    AscendingBy(DomainOf, s) && forall r :: r in s ==> r.origin.Discovered?
  }

  /** A `put` of a discovered record keeps the store well formed and upserts that key. */
  lemma PutDiscovered(s: seq<ServiceRecord>, r: ServiceRecord)
    requires DiscoveredStore(s) && r.origin.Discovered?
    ensures DiscoveredStore(Put(DomainOf, s, r))
    ensures AsMap(DomainOf, Put(DomainOf, s, r)) == AsMap(DomainOf, s)[r.domain := r]
  {
    PutAscending(DomainOf, s, r);
    PutMap(DomainOf, s, r);
  }

  /**
   * The record `addDiscoveredService` writes: the stored record of the
   * domain (`www.` stripped) updated, or else a new one.
   */
  function Discover(s: seq<ServiceRecord>, domain: string, md: Metadata, now: int): (r: ServiceRecord)
    requires DiscoveredStore(s)
    ensures r.domain == StripWww(domain) && r.origin.Discovered?
  {
    var m := AsMap(DomainOf, s);
    var d := StripWww(domain);
    AsMapValues(DomainOf, s);
    if d in m then MergeDiscovered(m[d], md, now) else NewDiscovered(domain, md, now)
  }

  lemma DiscoverUpdatesExisting(s: seq<ServiceRecord>, domain: string, md: Metadata, now: int)
    requires DiscoveredStore(s) && StripWww(domain) in AsMap(DomainOf, s)
    ensures AsMap(DomainOf, s)[StripWww(domain)].origin.Discovered?
    ensures Discover(s, domain, md, now) == MergeDiscovered(AsMap(DomainOf, s)[StripWww(domain)], md, now)
  {
    AsMapValues(DomainOf, s);
  }

  /** Detecting a service again counts one more movie and keeps when it was first seen. */
  lemma DiscoverAgain(s: seq<ServiceRecord>, domain: string, md1: Metadata, md2: Metadata, t1: int, t2: int)
    requires DiscoveredStore(s)
    ensures DiscoveredStore(Put(DomainOf, s, Discover(s, domain, md1, t1)))
    ensures var r1 := Discover(s, domain, md1, t1);
      var r2 := Discover(Put(DomainOf, s, r1), domain, md2, t2);
      && r2.origin.movieCount == r1.origin.movieCount + 1
      && r2.origin.firstDetected == r1.origin.firstDetected
      && r2.origin.lastSeen == t2
      && r2.name == r1.name
  {
    var r1 := Discover(s, domain, md1, t1);
    PutDiscovered(s, r1);
    DiscoverUpdatesExisting(Put(DomainOf, s, r1), domain, md2, t2);
  }

  // ---------------------------------------------------------------- read-write transactions

  /*
   * The loops of `seedKnownServices`, `getServiceStats` and `cleanup`, each
   * on the records of one transaction; the database commits the result.
   */

  /** The seeding loop: one `put` per catalog entry, in catalog order. */
  method PutCatalog(store: seq<ServiceRecord>, entries: seq<CatalogEntry>, now: int) returns (r: seq<ServiceRecord>)
    requires KnownStore(store)
    ensures KnownStore(r)
    ensures AsMap(DomainOf, r) == SeedStore(AsMap(DomainOf, store), entries, |entries|, now)
  {
    r := store;
    for i := 0 to |entries|
      invariant KnownStore(r)
      invariant AsMap(DomainOf, r) == SeedStore(AsMap(DomainOf, store), entries, i, now)
    {
      var service := Stamp(entries[i], now);
      PutAscending(DomainOf, r, service);
      PutMap(DomainOf, r, service);
      r := Put(DomainOf, r, service);
    }
  }

  /** The two `forEach` loops of `getServiceStats` over a dictionary keyed by domain, then the sort. */
  /** The first loop of `getServiceStats`: one zero row per domain, first record wins. */
  method EmptyRows(all: seq<ServiceRecord>) returns (stats: map<string, StatRow>, order: seq<string>)
    ensures order == Domains(FirstPerDomain(all))
    ensures forall d :: d in stats <==> d in order
    ensures forall k :: 0 <= k < |order| ==> stats[order[k]] == RowFor(FirstPerDomain(all)[k], [])
  {
    // `stats`: a dictionary from domain to row, `order` its keys in insertion order
    stats, order := map[], [];
    ghost var firsts: seq<ServiceRecord> := [];
    for i := 0 to |all|
      invariant firsts == FirstPerDomain(all[..i])
      invariant order == Domains(firsts)
      invariant forall d :: d in stats <==> d in order
      invariant forall k :: 0 <= k < |order| ==> stats[order[k]] == RowFor(firsts[k], [])
    {
      var s := all[i];
      FirstPerDomainStep(all, i);
      if s.domain !in stats {
        var row := StatRow(s.domain, s.name, s.category, 0, 0, None);
        assert row == RowFor(s, []);
        stats := stats[s.domain := row];
        order := order + [s.domain];
        firsts := firsts + [s];
      }
    }
    assert all[..|all|] == all;
  }

  /** The second loop of `getServiceStats`: every item is tallied into the row of its domain, if there is one. */
  method TallyItems(stats0: map<string, StatRow>, ghost f: seq<ServiceRecord>, items: seq<ContentEntry>)
    returns (stats: map<string, StatRow>)
    requires forall d :: d in stats0 <==> d in Domains(f)
    requires forall k :: 0 <= k < |f| ==> stats0[f[k].domain] == RowFor(f[k], [])
    ensures forall d :: d in stats <==> d in Domains(f)
    ensures forall k :: 0 <= k < |f| ==> stats[f[k].domain] == RowFor(f[k], items)
  {
    stats := stats0;
    for j := 0 to |items|
      invariant forall d :: d in stats <==> d in Domains(f)
      invariant forall k :: 0 <= k < |f| ==> stats[f[k].domain] == RowFor(f[k], items[..j])
    {
      var item := items[j];
      assert items[..j + 1] == items[..j] + [item];
      forall k | 0 <= k < |f|
        ensures RowFor(f[k], items[..j + 1]) == if item.domain == f[k].domain then Tally(RowFor(f[k], items[..j]), item) else RowFor(f[k], items[..j])
      {
        RowForSnoc(f[k], items[..j], item);
      }
      if item.domain in stats {
        stats := stats[item.domain := Tally(stats[item.domain], item)];
      }
    }
    assert items[..|items|] == items;
  }

  /**
   * `getServiceStats` over the two service lists and the content list: the
   * rows of `StatsRows`, ordered by `SortByCount`.
   */
  method TallyStats(all: seq<ServiceRecord>, items: seq<ContentEntry>) returns (r: seq<StatRow>)
    ensures r == SortByCount(StatsRows(all, items))
  {
    var stats0, order := EmptyRows(all);
    ghost var f := FirstPerDomain(all);
    var stats := TallyItems(stats0, f, items);
    // `Object.values(stats)`
    var rows := seq(|order|, k requires 0 <= k < |order| => stats[order[k]]);
    assert rows == StatsRows(all, items);
    r := SortByCount(rows);
  }


  /** A cursor over the `lastWatched` index, seen as the entries it visits, oldest first. */
  method OpenIndex(items: seq<ContentEntry>) returns (index: seq<ContentEntry>)
    ensures multiset(index) == multiset(items)
    ensures forall a, b :: 0 <= a < b < |index| ==> index[a].lastWatched <= index[b].lastWatched
  {
    index := ByWatchTime(items);
    ByWatchTimeMonotone(items);
  }

  /** The content store after the purge `cleanup` intends: entries watched after the cutoff. */
  function KeepRecent(m: map<string, ContentEntry>, cutoff: int): (r: map<string, ContentEntry>)
    ensures forall k :: k in r <==> k in m && m[k].lastWatched > cutoff
    ensures forall k :: k in r ==> r[k] == m[k]
  {
    map k | k in m && m[k].lastWatched > cutoff :: m[k]
  }

  /**
   * The content purge of `cleanup` as written. It opens a cursor over the
   * `lastWatched` index up to the cutoff and sets an `onsuccess` handler that
   * would delete each entry and continue; awaiting the request through
   * `promisifyRequest` then replaces that handler before the first event
   * fires, so the first event only resolves the promise and the store is
   * left as it was.
   */
  function PurgeContentAsWritten(items: seq<ContentEntry>, cutoff: int): seq<ContentEntry> {
    items
  }

  /** An entry watched 90 days before `cleanup()` runs survives the purge as written, but not the intended one. */
  lemma StaleContentSurvivesAsWritten()
    ensures var e := ContentEntry("netflix.com_1a_0", "netflix.com", "Film", "https://netflix.com/watch/1", 0, 0, Some("movie"), 0, 1);
      && e in PurgeContentAsWritten([e], Cutoff(90 * 86_400_000, 90))
      && e.id !in KeepRecent(AsMap(IdOf, [e]), Cutoff(90 * 86_400_000, 90))
  {
  }

  /** The ids of the first `n` entries of `s`. */
  ghost function Ids(s: seq<ContentEntry>, n: nat): set<string>
    requires n <= |s|
  {
    set j | 0 <= j < n :: s[j].id
  }

  /**
   * The content purge `cleanup` intends: walk the `lastWatched` index from
   * the oldest entry while it is at most the cutoff (`upperBound` is
   * inclusive), deleting each entry.
   */
  method PurgeContent(items: seq<ContentEntry>, cutoff: int) returns (r: seq<ContentEntry>)
    requires AscendingBy(IdOf, items)
    ensures AscendingBy(IdOf, r)
    ensures AsMap(IdOf, r) == KeepRecent(AsMap(IdOf, items), cutoff)
  {
    var index := OpenIndex(items);
    var i;
    r, i := DeleteOldest(items, index, cutoff);
    PurgedContentIsStale(items, index, i, cutoff);
  }

  /** The cursor walk: delete index entries from the oldest while they are at most the cutoff. */
  method DeleteOldest(items: seq<ContentEntry>, index: seq<ContentEntry>, cutoff: int) returns (r: seq<ContentEntry>, i: nat)
    requires AscendingBy(IdOf, items)
    ensures i <= |index| && (i == |index| || index[i].lastWatched > cutoff)
    ensures forall j :: 0 <= j < i ==> index[j].lastWatched <= cutoff
    ensures AscendingBy(IdOf, r)
    ensures AsMap(IdOf, r) == AsMap(IdOf, items) - Ids(index, i)
  {
    r := items;
    i := 0;
    while i < |index| && index[i].lastWatched <= cutoff
      invariant 0 <= i <= |index|
      invariant forall j :: 0 <= j < i ==> index[j].lastWatched <= cutoff
      invariant AscendingBy(IdOf, r)
      invariant AsMap(IdOf, r) == AsMap(IdOf, items) - Ids(index, i)
    {
      PurgeStep(items, index, i, r);
      r := Delete(IdOf, r, index[i].id);
      i := i + 1;
    }
  }

  /** Deleting the `i`-th entry of the index keeps the purge's loop invariant. */
  lemma PurgeStep(items: seq<ContentEntry>, index: seq<ContentEntry>, i: nat, r: seq<ContentEntry>)
    requires i < |index| && AscendingBy(IdOf, r) && AsMap(IdOf, r) == AsMap(IdOf, items) - Ids(index, i)
    ensures AscendingBy(IdOf, Delete(IdOf, r, index[i].id))
    ensures AsMap(IdOf, Delete(IdOf, r, index[i].id)) == AsMap(IdOf, items) - Ids(index, i + 1)
  {
    DeleteAscending(IdOf, r, index[i].id);
    DeleteMap(IdOf, r, index[i].id);
    MapMinusStep(AsMap(IdOf, items), Ids(index, i), index[i].id);
    assert Ids(index, i + 1) == Ids(index, i) + {index[i].id};
  }

  lemma VisitedAreStale(items: seq<ContentEntry>, index: seq<ContentEntry>, i: nat, cutoff: int)
    requires AscendingBy(IdOf, items) && multiset(index) == multiset(items) && i <= |index|
    requires forall j :: 0 <= j < i ==> index[j].lastWatched <= cutoff
    ensures forall k :: k in Ids(index, i) ==> k in AsMap(IdOf, items) && AsMap(IdOf, items)[k].lastWatched <= cutoff
  {
    var m := AsMap(IdOf, items);
    AscendingFacts(IdOf, items);
    forall k | k in Ids(index, i) ensures k in m && m[k].lastWatched <= cutoff {
      var j :| 0 <= j < i && index[j].id == k;
      var e := index[j];
      assert e in multiset(items);
      var p :| 0 <= p < |items| && items[p] == e;
    }
  }

  lemma StaleAreVisited(items: seq<ContentEntry>, index: seq<ContentEntry>, i: nat, cutoff: int)
    requires multiset(index) == multiset(items) && i <= |index|
    requires forall a, b :: 0 <= a < b < |index| ==> index[a].lastWatched <= index[b].lastWatched
    requires i == |index| || index[i].lastWatched > cutoff
    ensures forall k :: k in AsMap(IdOf, items) && AsMap(IdOf, items)[k].lastWatched <= cutoff ==> k in Ids(index, i)
  {
    var m := AsMap(IdOf, items);
    forall q | i <= q < |index| ensures index[q].lastWatched > cutoff {
      assert index[i].lastWatched <= index[q].lastWatched || q == i;
    }
    AsMapValues(IdOf, items);
    forall k | k in m && m[k].lastWatched <= cutoff ensures k in Ids(index, i) {
      var e := m[k];
      assert e in multiset(index);
      var p :| 0 <= p < |index| && index[p] == e;
      assert p < i;
    }
  }

  /** Deleting the ids of the prefix of the index the purge walks leaves exactly the recent entries. */
  lemma PurgedContentIsStale(items: seq<ContentEntry>, index: seq<ContentEntry>, i: nat, cutoff: int)
    requires AscendingBy(IdOf, items) && multiset(index) == multiset(items) && i <= |index|
    requires forall a, b :: 0 <= a < b < |index| ==> index[a].lastWatched <= index[b].lastWatched
    requires forall j :: 0 <= j < i ==> index[j].lastWatched <= cutoff
    requires i == |index| || index[i].lastWatched > cutoff
    ensures AsMap(IdOf, items) - Ids(index, i) == KeepRecent(AsMap(IdOf, items), cutoff)
  {
    VisitedAreStale(items, index, i, cutoff);
    StaleAreVisited(items, index, i, cutoff);
    var m, k := AsMap(IdOf, items) - Ids(index, i), KeepRecent(AsMap(IdOf, items), cutoff);
    assert m.Keys == k.Keys;
    assert m == k;
  }

  /** The deletion loop of `cleanup` over a snapshot of the discovered store. */
  method DeleteStale(all: seq<ServiceRecord>, cutoff: int) returns (store: seq<ServiceRecord>)
    requires DiscoveredStore(all)
    ensures DiscoveredStore(store)
    ensures AsMap(DomainOf, store) == PurgeStore(AsMap(DomainOf, all), cutoff)
  {
    store := all;
    for i := 0 to |all|
      invariant DiscoveredStore(store)
      invariant AsMap(DomainOf, store) == PurgeFirst(AsMap(DomainOf, all), all, i, cutoff)
    {
      var service := all[i];
      if Purgeable(service, cutoff) {
        DeleteAscending(DomainOf, store, service.domain);
        DeleteMap(DomainOf, store, service.domain);
        store := Delete(DomainOf, store, service.domain);
      }
    }
    PurgeFirstAll(AsMap(DomainOf, all), all, cutoff);
  }

  // ---------------------------------------------------------------- the database


  class StreamingServiceDB {
    var known: seq<ServiceRecord>         // store `streamingServices`, key `domain`
    var discovered: seq<ServiceRecord>    // store `discoveredServices`, key `domain`
    var content: seq<ContentEntry>        // store `contentCache`, key `id`
    var prefs: seq<Preference>            // store `userPreferences`, key `key`

    const version: nat

    /** Every store is in key order; each service store holds its own kind of record. */
    ghost predicate Valid()
      reads this
    {
      && KnownStore(known)
      && DiscoveredStore(discovered)
      && AscendingBy(IdOf, content)
      && AscendingBy(KeyOf, prefs)
    }

    /** The stores seen as dictionaries from key to record. */
    function Known(): map<string, ServiceRecord> reads this { AsMap(DomainOf, known) }
    function Discovered(): map<string, ServiceRecord> reads this { AsMap(DomainOf, discovered) }
    function Content(): map<string, ContentEntry> reads this { AsMap(IdOf, content) }
    function Prefs(): map<string, Preference> reads this { AsMap(KeyOf, prefs) }

    /**
     * Opening `movieTrackerDB` (schema version 1): the stores hold what earlier
     * sessions left in them, all four empty on the very first open.
     */
    constructor (known0: seq<ServiceRecord>, discovered0: seq<ServiceRecord>,
                 content0: seq<ContentEntry>, prefs0: seq<Preference>)
      requires KnownStore(known0) && DiscoveredStore(discovered0)
      requires AscendingBy(IdOf, content0) && AscendingBy(KeyOf, prefs0)
      ensures Valid() && version == 1
      ensures known == known0 && discovered == discovered0 && content == content0 && prefs == prefs0
    {
      known, discovered, content, prefs := known0, discovered0, content0, prefs0;
      version := 1;
    }

    // ------------------------------------------------------------ seedKnownServices

    /** `seedKnownServices`: `put` every catalog entry, stamped `now` and marked known. */
    method SeedKnownServices(now: int)
      requires Valid()
      modifies this
      ensures Valid()
      ensures Known() == SeedStore(old(Known()), KnownServices, |KnownServices|, now)
      ensures discovered == old(discovered) && content == old(content) && prefs == old(prefs)
    {
      known := PutCatalog(known, KnownServices, now);
    }

    // ------------------------------------------------------------ addDiscoveredService

    /**
     * `addDiscoveredService`: merge into the stored record of the domain
     * (`www.` stripped) when there is one, otherwise add a new record.
     */
    method AddDiscoveredService(domain: string, md: Metadata, now: int) returns (r: ServiceRecord)
      requires Valid()
      modifies this
      ensures Valid()
      ensures r == Discover(old(discovered), domain, md, now)
      ensures Discovered() == old(Discovered())[r.domain := r]
      ensures known == old(known) && content == old(content) && prefs == old(prefs)
    {
      r := Discover(discovered, domain, md, now);
      PutDiscovered(discovered, r);
      discovered := Put(DomainOf, discovered, r);
    }

    // ------------------------------------------------------------ lookups

    /**
     * `getServiceInfo`: with one leading `www.` stripped, the exact known
     * record, else the first known record in key order that overlaps, else
     * the same two steps on the discovered store.
     */
    function GetServiceInfo(domain: string): (r: Option<ServiceRecord>)
      reads this
      ensures StripWww(domain) in Known() ==> r == Some(Known()[StripWww(domain)])
      ensures r.Some? ==> Overlaps(StripWww(domain), r.value.domain) && (r.value in known || r.value in discovered)
    {
      var needle := StripWww(domain);
      ContainsSelf(needle);
      match StoreLookup(known, needle)
      case Some(s) => Some(s)
      case None => StoreLookup(discovered, needle)
    }

    /** `isKnownStreamingDomain`: strips `www.` itself and then asks `getServiceInfo`, which strips again. */
    function IsKnownStreamingDomain(domain: string): (b: bool)
      reads this
      ensures b <==> GetServiceInfo(StripWww(domain)).Some?
    {
      GetServiceInfo(StripWww(domain)).Some?
    }

    /** A lookup finds nothing exactly when no record of either store overlaps the stripped domain. */
    lemma LookupNone(domain: string)
      ensures GetServiceInfo(domain).None? <==>
        forall s :: s in known || s in discovered ==> !Overlaps(StripWww(domain), s.domain)
    {
      var needle := StripWww(domain);
      ContainsSelf(needle);
      if GetServiceInfo(domain).None? {
        forall s | s in known || s in discovered ensures !Overlaps(needle, s.domain) {
          if s in known {
            var i :| 0 <= i < |known| && known[i] == s;
          } else {
            var i :| 0 <= i < |discovered| && discovered[i] == s;
          }
        }
      }
    }

    /** A known record whose domain overlaps shadows even an exact discovered record. */
    lemma KnownOverlapShadowsDiscovered(domain: string, s: ServiceRecord)
      requires Valid()
      requires s in known && Overlaps(StripWww(domain), s.domain)
      ensures GetServiceInfo(domain).Some? && GetServiceInfo(domain).value.origin.Known?
    {
      var i :| 0 <= i < |known| && known[i] == s;
      var needle := StripWww(domain);
      if needle in Known() {
        assert needle in Keys(DomainOf, known);
        var j :| 0 <= j < |known| && Keys(DomainOf, known)[j] == needle;
        AscendingFacts(DomainOf, known);
        assert Known()[needle] == known[j];
      }
    }

    /**
     * The domain `extractDomain` gives for an unparsable URL is "", which
     * every stored domain contains: it resolves to the first known record.
     */
    lemma EmptyDomainFindsFirstKnown()
      requires Valid() && |known| > 0
      ensures GetServiceInfo("") == Some(known[0])
    {
      assert StripWww("") == "";
      ContainsEmpty(known[0].domain);
      AscendingFacts(DomainOf, known);
      if "" in Known() {
        var j :| 0 <= j < |known| && Keys(DomainOf, known)[j] == "";
        AscendingFirst(DomainOf, known);
        assert j == 0;
      }
    }

    // ------------------------------------------------------------ whole-store reads

    /** `getAllServices`: both stores in key order, and the number of records in all. */
    function GetAllServices(): (r: AllServices)
      reads this
      ensures r.known == known && r.discovered == discovered
      ensures r.total == |known| + |discovered|
    {
      AllServices(known, discovered, |known| + |discovered|)
    }

    /** In a valid database the total is the number of distinct keys of the two stores. */
    lemma TotalCountsRecords()
      requires Valid()
      ensures GetAllServices().total == |Known()| + |Discovered()|
    {
      AscendingFacts(DomainOf, known);
      AscendingFacts(DomainOf, discovered);
    }

    /**
     * `getAllDomains`: the domains of both stores collected in a `Set`, so
     * each appears once, in the order it was first added (known ones first).
     */
    method GetAllDomains() returns (r: seq<string>)
      ensures r == Dedup(Domains(known + discovered))
    {
      var services := GetAllServices();
      assert Dedup<string>([]) == [];
      r := AddNew([], Domains(services.known), []);
      assert [] + Domains(known) == Domains(known);
      r := AddNew(Domains(known), Domains(services.discovered), r);
      DomainsAppend(known, discovered);
    }

    // ------------------------------------------------------------ the content cache

    /**
     * `cacheContent`: add an entry keyed `serviceName_hash(title)_now`; when
     * that id is already taken the `add` fails, the error is logged and
     * nothing changes.
     */
    method CacheContent(data: WatchData, now: int)
      requires Valid()
      modifies this
      ensures Valid()
      ensures ContentId(data, now) in old(Content()) ==> content == old(content)
      ensures ContentId(data, now) !in old(Content()) ==> Content() == old(Content())[ContentId(data, now) := NewContent(data, now)]
      ensures known == old(known) && discovered == old(discovered) && prefs == old(prefs)
    {
      var hash := HashString(data.title);
      var id := data.serviceName + "_" + hash + "_" + IntToString(now);
      var entry := ContentEntry(id, data.domain, data.title, data.url, data.duration, data.currentTime, data.kind, now, 1);
      if id !in Content() {
        PutAscending(IdOf, content, entry);
        PutMap(IdOf, content, entry);
        content := Put(IdOf, content, entry);
      }
    }

    /**
     * `getRecentContent(limit)`: walk the `lastWatched` index backwards
     * (newest first) and stop once `limit` entries are collected.
     */
    method GetRecentContent(limit: int) returns (r: seq<ContentEntry>)
      ensures r == Recent(content, limit)
    {
      var index := ByWatchTime(content);
      var n := |index|;
      r := [];
      var pos := n;
      while pos > 0 && |r| < limit
        invariant 0 <= pos <= n && |r| == n - pos
        invariant forall i :: 0 <= i < |r| ==> r[i] == index[n - 1 - i]
        invariant |r| == 0 || |r| <= limit
      {
        pos := pos - 1;
        r := r + [index[pos]];
      }
      assert |r| == |Recent(content, limit)|;
    }

    // ------------------------------------------------------------ getServiceStats

    /**
     * `getServiceStats`: one row per distinct service domain (the known
     * record's name winning), tallied over the whole content store, most
     * watched first.
     */
    method GetServiceStats() returns (r: seq<StatRow>)
      ensures r == SortByCount(StatsRows(known + discovered, content))
    {
      var services := GetAllServices();
      var items := content;
      r := TallyStats(services.known + services.discovered, items);
    }

    // ------------------------------------------------------------ preferences

    /** `setUserPreference`: `put` `{key, value, updatedAt: now}`. */
    method SetUserPreference(key: string, value: Value, now: int)
      requires Valid()
      modifies this
      ensures Valid()
      ensures Prefs() == old(Prefs())[key := Preference(key, value, now)]
      ensures forall d :: GetUserPreference(key, d) == value
      ensures known == old(known) && discovered == old(discovered) && content == old(content)
    {
      var p := Preference(key, value, now);
      PutAscending(KeyOf, prefs, p);
      PutMap(KeyOf, prefs, p);
      prefs := Put(KeyOf, prefs, p);
    }

    /** `getUserPreference`: the stored value (even a falsy one), else the default. */
    function GetUserPreference(key: string, default: Value): (v: Value)
      reads this
      ensures key !in Prefs() ==> v == default
      ensures key in Prefs() ==> v == Prefs()[key].value
    {
      var m := Prefs();
      if key in m then m[key].value else default
    }

    // ------------------------------------------------------------ cleanup and export

    /**
     * `cleanup(daysToKeep)`: removes the discovered records whose confidence
     * is below 0.3 and that were last seen before the cutoff. The known store
     * and the preferences are never touched. The content entries watched
     * by the cutoff are removed too, as intended; as written that purge
     * removes nothing (see `PurgeContentAsWritten`).
     */
    method Cleanup(daysToKeep: int, now: int)
      requires Valid()
      modifies this
      ensures Valid()
      ensures Discovered() == PurgeStore(old(Discovered()), Cutoff(now, daysToKeep))
      ensures Content() == KeepRecent(old(Content()), Cutoff(now, daysToKeep))
      ensures known == old(known) && prefs == old(prefs)
    {
      var cutoff := Cutoff(now, daysToKeep);
      content := PurgeContent(content, cutoff);
      discovered := DeleteStale(discovered, cutoff);
    }

    /** `exportData`: a read-only dump of every store. */
    method ExportData(now: int) returns (s: Snapshot)
      requires Valid()
      ensures s.timestamp == now && s.version == version
      ensures s.services == GetAllServices()
      ensures s.content == content && |s.content| == |Content()|
      ensures s.preferences == prefs && |s.preferences| == |Prefs()|
    {
      AscendingFacts(IdOf, content);
      AscendingFacts(KeyOf, prefs);
      s := Snapshot(now, version, GetAllServices(), content, prefs);
    }
  }
}
