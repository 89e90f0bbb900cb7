# Streaming-service movie detection, modelled in Dafny

This project models the core of a Chrome extension that recognises movies being watched on streaming sites. It has five parts:

- **The service registry** (`StreamingServiceDB`). This is the IndexedDB database of streaming services. It holds four stores:
  - a seeded catalog of 13 known services;
  - services discovered on the fly, whose confidence rises with every sighting;
  - cached watch entries, indexed by `lastWatched`;
  - user preferences.

  It provides lookups by domain, statistics per service, a 32-bit string hash, and a cleanup that purges stale discovered services and old watch entries.
- **The service detector** (`StreamingServiceDetector`). It keeps a five-minute domain cache in front of the registry and scores a page as a movie page. The score comes from URL patterns, a video element, a title and a duration. The detector can also learn a new service from a page's URL and selectors.
- **The content-script movie detector** (`MovieDetector`). This state machine announces a new movie and reports progress on the current one. It forgets the movie when the page no longer shows one.
- **The background service worker.** It keeps a table of the movies being watched, one entry per service, title and tab. The table is fed by the content scripts' messages and pruned when a tab closes.
- **The heuristic smart detector.** It scores any site from its URL and page content, cleans titles and reads durations from the player or from on-screen `m:ss` text.

## Modules

| module | file | models |
|---|---|---|
| Wrappers | wrappers.dfy | `Option` |
| Strings | strings.dfy | the string built-ins the code relies on: `includes`, `trim`, `split`, `toLowerCase`, `Number`, `toString`, `replace(/^www\./, '')`, `[...new Set(s)]` |
| KeyOrder | keyorder.dfy | string order, which is the order IndexedDB's `getAll` lists keys in |
| Stores | stores.dfy | an object store as its records in ascending key order, with `put` and `delete` |
| JsValues | jsvalues.dfy | JSON values, truthiness, and objects as dictionaries |
| Catalog | catalog.dfy | the seeded catalog of known services |
| Hashing | hashing.dfy | `hashString`: the 31-polynomial hash with 32-bit wrap-around, printed in base 36 |
| Services | services.dfy | service records: first discovery, re-discovery, `extractServiceName` |
| Registry | registry.dfy | the class `StreamingServiceDB` and its specification functions |
| Durations | durations.dfy | parsing `h:mm:ss` text in the detector, and `formatDuration` in the content script |
| Pages | pages.dfy | a page as an abstract snapshot: selector matches, their texts, and the videos |
| Detection | detection.dfy | the class `StreamingServiceDetector`, and the movie-page verdict `Classify` |
| MovieDetection | moviedetection.dfy | the class `MovieDetector` |
| Background | background.dfy | the class `ServiceWorker` |
| SmartDetection | smartdetection.dfy | the heuristic site detector and the info extractors |

## Units and encodings

- **Confidences** are integers in tenths: 0.3 is `3` and 1.0 is `10`. Durations are whole seconds.
- **The sum 0.2 + 0.1.** In the detector's verdict, this sum is `0.30000000000000004` in floating point, which passes the `> 0.3` test. The verdict encodes that case explicitly. It is the page with a service title and a parsed duration but no URL pattern and no video.
- **`Number(text)`** is modelled on digit strings only. The empty string reads as 0, and every other text is read as `NaN`, which differs from JavaScript for some texts (see Left out).
- **Stores.** Each store is a map together with the list of its records in ascending key order, which is what `getAll` returns. The content store also has its `lastWatched` index, ordered by watch time with ties broken by id.
- **The clock** is a `now` parameter in milliseconds.
- **A URL** is given as its `href` and, when it parses, its `hostname`, `pathname` and `search`.

## Model

| member | source | states |
|---|---|---|
| Registry.StreamingServiceDB.constructor | chrome-extension/src/services/StreamingServiceDB.js:3-8 | Opening the database gives schema version 1 and stores that hold exactly the persisted records given, each store in key order. All four are empty only on the first open. |
| Catalog.Stamp | chrome-extension/src/services/StreamingServiceDB.js:228-230 | A seeded record copies the entry's domain, name, category, URL patterns and selectors, and is marked known with `addedDate` set to now. |
| Catalog.CatalogDomainsDistinct | chrome-extension/src/services/StreamingServiceDB.js:78-223 | The catalog lists 13 services and no two share a domain. |
| Registry.CatalogDistinct | chrome-extension/src/services/StreamingServiceDB.js:78-223 | The catalog's domains are pairwise distinct, so no `put` of the seeding loop overwrites another. |
| Registry.SeedStoreContents | chrome-extension/src/services/StreamingServiceDB.js:228-239 | After seeding, the store's keys are the old keys plus the catalog domains. Every catalog domain holds its stamped record, and every other old record is kept unchanged. |
| Registry.SeedIdempotent | chrome-extension/src/services/StreamingServiceDB.js:228-239 | Seeding twice gives the same key set as seeding once. Seeding again at the same time changes nothing. |
| Registry.PutCatalog | chrome-extension/src/services/StreamingServiceDB.js:228-239 | The seeding loop puts the catalog entries in order. The known store stays sorted and equals the seeded dictionary. |
| Registry.StreamingServiceDB.SeedKnownServices | chrome-extension/src/services/StreamingServiceDB.js:75-240 | The known store becomes the seeded dictionary. The other three stores are unchanged. |
| Services.StringOr | chrome-extension/src/services/StreamingServiceDB.js:248-249 | `text || fallback` returns a present, non-empty text itself, and the fallback when the text is missing or empty. |
| Services.FirstLabel | chrome-extension/src/services/StreamingServiceDB.js:504-505 | After one leading `www.` is stripped, the first label is the domain's prefix up to its first dot, or the whole domain when it has no dot. |
| Services.DashesToSpaces | chrome-extension/src/services/StreamingServiceDB.js:506 | Each `-` or `_` becomes a space. Every other character and the length are kept. |
| Services.CapitalizeWordsShape | chrome-extension/src/services/StreamingServiceDB.js:507 | Capitalising keeps the length and the word starts, leaves no word start lower-case, keeps every other character, and a second pass changes nothing. |
| Services.ExtractServiceName | chrome-extension/src/services/StreamingServiceDB.js:500-508 | The name is the first label character by character: `-` and `_` become spaces, and the first character of each word is upper-cased. So it is as long as the label, holds no `.`, `-` or `_`, and no word of it starts with a lower-case letter. |
| Services.OneWordDomainName | chrome-extension/src/services/StreamingServiceDB.js:500-508 | A domain whose first label is one lower-case word is named by that word with its first letter upper-cased. |
| Services.NetflixName | chrome-extension/src/services/StreamingServiceDB.js:502 | "www.netflix.com" is named "Netflix". |
| Services.NameShape | chrome-extension/src/services/StreamingServiceDB.js:503-507 | For a dot-free label, the dash replacement and capitalisation give the label's characters with `-` and `_` as spaces and each word's first character upper-cased: a separator-free, capitalised name of the same length. |
| Services.NewDiscovered | chrome-extension/src/services/StreamingServiceDB.js:246-257 | A new record has: the stripped domain; the `name || extractServiceName` and `category || 'unknown'` defaults; the patterns and selectors as given; first and last seen now; count 1; confidence = given || 0.5. |
| Services.MergePatterns | chrome-extension/src/services/StreamingServiceDB.js:274 | The merged patterns have no duplicates. They are exactly the union of both lists, with existing (duplicate-free) patterns first in their order. |
| Services.MergeDiscovered | chrome-extension/src/services/StreamingServiceDB.js:266-281 | A re-discovery keeps domain, name, category and `firstDetected`. It sets `lastSeen` to now, adds one to the count and raises confidence to min(c + 0.1, 1). It merges patterns and selectors only when the metadata supplies them. |
| Services.Rediscover | chrome-extension/src/services/StreamingServiceDB.js:266-270 | After n further sightings the record is still a discovered record. |
| Services.RediscoverConfidence | chrome-extension/src/services/StreamingServiceDB.js:269-270 | After n more sightings, confidence is min(c + 0.1·n, 1.0), the count has grown by n and the name is unchanged. |
| Services.RediscoverMonotonic | chrome-extension/src/services/StreamingServiceDB.js:270 | More sightings never lower confidence. |
| Registry.Discover | chrome-extension/src/services/StreamingServiceDB.js:246-287 | The written record is keyed by the domain without `www.` and is a discovered record. |
| Registry.DiscoverUpdatesExisting | chrome-extension/src/services/StreamingServiceDB.js:264-282 | When the stripped domain is stored, the written record is the merge into that stored record. |
| Registry.DiscoverAgain | chrome-extension/src/services/StreamingServiceDB.js:266-270 | Discovering the same domain twice adds one to the movie count and keeps `firstDetected`. |
| Registry.PutDiscovered | chrome-extension/src/services/StreamingServiceDB.js:281-285 | A `put` of a discovered record keeps the store well formed and upserts exactly that key. |
| Registry.StreamingServiceDB.AddDiscoveredService | chrome-extension/src/services/StreamingServiceDB.js:243-292 | The returned record is the one written. The discovered store changes at that key only, and the other stores are unchanged. |
| Registry.FirstOverlap | chrome-extension/src/services/StreamingServiceDB.js:310-312 | Returns the position of the first record whose domain contains, or is contained in, the needle, and none when no record overlaps. |
| Registry.StoreLookup | chrome-extension/src/services/StreamingServiceDB.js:305-312 | An exact key wins. Otherwise the result is the first overlapping record in key order, and nothing when no key matches and no record overlaps. |
| Registry.StreamingServiceDB.GetServiceInfo | chrome-extension/src/services/StreamingServiceDB.js:295-331 | The lookup strips one `www.`. An exact known record is returned. Any result overlaps the stripped domain and comes from one of the two stores. |
| Registry.StreamingServiceDB.LookupNone | chrome-extension/src/services/StreamingServiceDB.js:298-330 | A lookup finds nothing exactly when no record of either store overlaps the stripped domain. |
| Registry.StreamingServiceDB.KnownOverlapShadowsDiscovered | chrome-extension/src/services/StreamingServiceDB.js:300-328 | An overlapping known record makes the answer a known record, even when the discovered store holds the exact key. |
| Registry.StreamingServiceDB.EmptyDomainFindsFirstKnown | chrome-extension/src/services/StreamingServiceDB.js:309-312 | The empty domain resolves to the first known record in key order. |
| Registry.StreamingServiceDB.IsKnownStreamingDomain | chrome-extension/src/services/StreamingServiceDB.js:334-347 | The answer is true exactly when `getServiceInfo` of the stripped domain finds a record. |
| Registry.StreamingServiceDB.GetAllServices | chrome-extension/src/services/StreamingServiceDB.js:350-363 | Returns both stores in key order, with total = the sum of their sizes. |
| Registry.StreamingServiceDB.TotalCountsRecords | chrome-extension/src/services/StreamingServiceDB.js:361 | In a valid database the total is the number of distinct keys of the two stores. |
| Registry.Domains | chrome-extension/src/services/StreamingServiceDB.js:372-373 | The domain list has one entry per record, in the records' order. |
| Registry.DomainsAppend | chrome-extension/src/services/StreamingServiceDB.js:372-373 | The domains of two lists joined are the two domain lists joined. |
| Registry.AddNew | chrome-extension/src/services/StreamingServiceDB.js:372-373 | The `forEach` of `Set.add` turns a de-duplicated prefix into the de-duplication of prefix followed by the new elements. |
| Registry.StreamingServiceDB.GetAllDomains | chrome-extension/src/services/StreamingServiceDB.js:366-376 | The result is the de-duplication of the domains of the known and then the discovered records. |
| Strings.Dedup | chrome-extension/src/services/StreamingServiceDB.js:370-375 | `[...new Set(s)]` has no duplicates, contains exactly the elements of s and is no longer than s. |
| Strings.DedupMembers | chrome-extension/src/services/StreamingServiceDB.js:370-375 | An element is in the de-duplicated list exactly when it is in the original. |
| Strings.DedupSnoc | chrome-extension/src/services/StreamingServiceDB.js:372-373 | Adding an element keeps the order and appends the element only when it is new. |
| Strings.DedupNoDup | chrome-extension/src/services/StreamingServiceDB.js:370-375 | De-duplicating a duplicate-free list changes nothing. |
| Strings.DedupKeepsPrefix | chrome-extension/src/services/StreamingServiceDB.js:274 | De-duplicating `a + b` with a duplicate-free `a` keeps `a` as its prefix. |
| Hashing.Int32 | chrome-extension/src/services/StreamingServiceDB.js:515 | ToInt32 lies in [-2^31, 2^31). |
| Hashing.Int32Periodic | chrome-extension/src/services/StreamingServiceDB.js:515 | ToInt32 depends only on its argument modulo 2^32. |
| Hashing.ShiftStep | chrome-extension/src/services/StreamingServiceDB.js:514-515 | `((h << 5) - h + c) & itself` is ToInt32(31·h + c). |
| Hashing.JavaHash | chrome-extension/src/services/StreamingServiceDB.js:511-516 | The hash loop yields a signed 32-bit integer. |
| Hashing.JavaHashIsWrappedPolynomial | chrome-extension/src/services/StreamingServiceDB.js:511-516 | Wrapping after every step equals wrapping the polynomial Σ 31^k·c once at the end. |
| Hashing.ToBase36 | chrome-extension/src/services/StreamingServiceDB.js:517 | `n.toString(36)` is a non-empty string of base-36 digits. |
| Hashing.Base36RoundTrip | chrome-extension/src/services/StreamingServiceDB.js:517 | Reading `n.toString(36)` back gives n. |
| Hashing.HashString | chrome-extension/src/services/StreamingServiceDB.js:510-518 | The loop returns |ToInt32(Σ 31^k·c)| in base 36, whose value is at most 2^31. |
| Hashing.EmptyHash | chrome-extension/src/services/StreamingServiceDB.js:511-517 | The empty string hashes to "0". |
| Registry.NewContent | chrome-extension/src/services/StreamingServiceDB.js:382-392 | A new content entry has id `serviceName_hash(title)_now`, `lastWatched` now and watch count 1. |
| Registry.StreamingServiceDB.CacheContent | chrome-extension/src/services/StreamingServiceDB.js:379-406 | When the id is taken, the `add` fails and nothing changes. Otherwise the content store gains exactly that entry. The other stores are unchanged. |
| Registry.IndexLessIsOrder | chrome-extension/src/services/StreamingServiceDB.js:53 | The `lastWatched` index order, with ties broken by id, is a strict total order. |
| Registry.InsertByWatch | chrome-extension/src/services/StreamingServiceDB.js:53 | Inserting into the index adds exactly that entry. |
| Registry.InsertByWatchOrdered | chrome-extension/src/services/StreamingServiceDB.js:53 | Inserting into an ordered index keeps it ordered. |
| Registry.ByWatchTime | chrome-extension/src/services/StreamingServiceDB.js:414 | The index lists exactly the store's entries. |
| Registry.ByWatchTimeOrdered | chrome-extension/src/services/StreamingServiceDB.js:414 | The index is in (`lastWatched`, id) order. |
| Registry.ByWatchTimeMonotone | chrome-extension/src/services/StreamingServiceDB.js:414 | Read forwards, the index's watch times never decrease. |
| Registry.Recent | chrome-extension/src/services/StreamingServiceDB.js:417-433 | Returns exactly min(limit, size) entries, and none for a negative limit. |
| Registry.RecentDescending | chrome-extension/src/services/StreamingServiceDB.js:418-433 | Returned entries are newest first. |
| Registry.RecentAreNewest | chrome-extension/src/services/StreamingServiceDB.js:418-433 | An entry that is not returned is no newer than any returned entry. |
| Registry.RecentAll | chrome-extension/src/services/StreamingServiceDB.js:423 | With a limit of at least the store's size, every entry is returned. |
| Registry.StreamingServiceDB.GetRecentContent | chrome-extension/src/services/StreamingServiceDB.js:409-437 | The result is `Recent` of the content store and limit. |
| Registry.FirstPerDomain | chrome-extension/src/services/StreamingServiceDB.js:451-462 | The first record of every domain, in order: each domain once, exactly the domains of the records, every row a record of the input. |
| Registry.CountFor | chrome-extension/src/services/StreamingServiceDB.js:465-467 | The count is at most the number of items, and is 0 exactly when no item has that domain. |
| Registry.LastUsedFor | chrome-extension/src/services/StreamingServiceDB.js:470-472 | `lastUsed` is null exactly when the count is 0. Otherwise it is the watch time of one of the domain's items and at least every other item's watch time. |
| Registry.Tally | chrome-extension/src/services/StreamingServiceDB.js:466-472 | Tallying an item adds one to `contentCount`. |
| Registry.RowForSnoc | chrome-extension/src/services/StreamingServiceDB.js:465-474 | Tallying item by item gives the row computed over all items. An item of another domain changes nothing. |
| Registry.StatsRows | chrome-extension/src/services/StreamingServiceDB.js:448-474 | Before sorting there is one row per distinct service domain. |
| Registry.InsertByCount | chrome-extension/src/services/StreamingServiceDB.js:476 | Inserting a row adds exactly that row. |
| Registry.InsertByCountDescending | chrome-extension/src/services/StreamingServiceDB.js:476 | Inserting a row into a descending list keeps it descending. |
| Registry.SortByCount | chrome-extension/src/services/StreamingServiceDB.js:476 | The sort gives the same rows, in descending `contentCount`. |
| Registry.InsertByCountStable | chrome-extension/src/services/StreamingServiceDB.js:476 | Inserting a row into a descending list keeps, for every count, the rows with that count in their order, and puts the new row after the rows of its own count. |
| Registry.SortByCountStable | chrome-extension/src/services/StreamingServiceDB.js:476 | The sort is stable: for every count, the rows with that count appear in their original order. |
| Registry.SortByCountOfSorted | chrome-extension/src/services/StreamingServiceDB.js:476 | A list already in descending `contentCount` is left as it is. When no content is stored, every row counts 0, so `getServiceStats` keeps the order of `getAllServices`. |
| Registry.EmptyRows | chrome-extension/src/services/StreamingServiceDB.js:451-462 | The first loop gives the order of first domains, keys exactly those domains, and for each a zero row built from its first record, so a known record's name wins. |
| Registry.TallyItems | chrome-extension/src/services/StreamingServiceDB.js:465-474 | The second loop keeps the domain set and leaves each row tallied over all items of its domain. Items of unknown domains are ignored. |
| Registry.TallyStats | chrome-extension/src/services/StreamingServiceDB.js:448-476 | The result is `SortByCount(StatsRows(...))`. |
| Registry.StreamingServiceDB.GetServiceStats | chrome-extension/src/services/StreamingServiceDB.js:440-477 | The result is the rows over the known and then the discovered services and the whole content store, most watched first. |
| Registry.StreamingServiceDB.SetUserPreference | chrome-extension/src/services/StreamingServiceDB.js:480-487 | The preference store changes at that key only. Every later read of the key returns the value, falsy or not. The other stores are unchanged. |
| Registry.StreamingServiceDB.GetUserPreference | chrome-extension/src/services/StreamingServiceDB.js:489-497 | Returns the stored value when the key is present, else the default. |
| Registry.PurgeStore | chrome-extension/src/services/StreamingServiceDB.js:555-559 | A record survives exactly when it is not purgeable (confidence < 0.3 and `lastSeen` < cutoff), and survivors are unchanged. |
| Registry.PurgeFirstRemoves | chrome-extension/src/services/StreamingServiceDB.js:555-558 | The first n loop steps remove exactly the purgeable keys visited so far. |
| Registry.PurgedArePurgeable | chrome-extension/src/services/StreamingServiceDB.js:555-558 | Every key the loop deletes is a purgeable record of the store. |
| Registry.PurgeableArePurged | chrome-extension/src/services/StreamingServiceDB.js:555-558 | Every purgeable record is deleted by the loop. |
| Registry.PurgeFirstAll | chrome-extension/src/services/StreamingServiceDB.js:553-559 | Visiting the whole snapshot leaves exactly the records `PurgeStore` keeps. |
| Registry.RemovingPurgeable | chrome-extension/src/services/StreamingServiceDB.js:556-557 | Removing exactly the purgeable keys is the purge. |
| Registry.DeleteStale | chrome-extension/src/services/StreamingServiceDB.js:553-559 | The deletion loop keeps the store well formed and leaves it equal to `PurgeStore`. |
| Registry.OpenIndex | chrome-extension/src/services/StreamingServiceDB.js:537-539 | The cursor visits exactly the content entries, oldest first. |
| Registry.KeepRecent | chrome-extension/src/services/StreamingServiceDB.js:539-546 | An entry is kept exactly when it was watched after the cutoff, and is unchanged. |
| Registry.StaleContentSurvivesAsWritten | chrome-extension/src/services/StreamingServiceDB.js:539-547 | With the code as written, an entry watched 90 days before `cleanup()` survives, although the intended purge removes it. |
| Registry.DeleteOldest | chrome-extension/src/services/StreamingServiceDB.js:539-546 | The walk stops at the first entry newer than the cutoff. Everything visited is at most the cutoff, and exactly the visited ids are deleted. |
| Registry.PurgedContentIsStale | chrome-extension/src/services/StreamingServiceDB.js:539-546 | Deleting the ids of the prefix the walk visits leaves exactly the entries `KeepRecent` keeps. |
| Registry.PurgeContent | chrome-extension/src/services/StreamingServiceDB.js:535-547 | The intended content purge keeps the store sorted and leaves exactly the entries watched after the cutoff. |
| Registry.StreamingServiceDB.Cleanup | chrome-extension/src/services/StreamingServiceDB.js:528-565 | The discovered store becomes `PurgeStore` and the content store `KeepRecent`, both at the cutoff now − days·86400000. The known store and the preferences are untouched. |
| Registry.StreamingServiceDB.ExportData | chrome-extension/src/services/StreamingServiceDB.js:568-584 | A read-only dump of all services, content and preferences, with timestamp now and the schema version. |
| Stores.Put | chrome-extension/src/services/StreamingServiceDB.js:235 | A `put` result holds only old records and the new one. |
| Stores.PutAscending | chrome-extension/src/services/StreamingServiceDB.js:235 | A `put` keeps the store in ascending key order. |
| Stores.PutMap | chrome-extension/src/services/StreamingServiceDB.js:281 | A `put` updates the store's dictionary at the record's key. |
| Stores.Delete | chrome-extension/src/services/StreamingServiceDB.js:557 | A `delete` only removes records. |
| Stores.DeleteAscending | chrome-extension/src/services/StreamingServiceDB.js:557 | A `delete` keeps the store in ascending key order. |
| Stores.DeleteMap | chrome-extension/src/services/StreamingServiceDB.js:557 | A `delete` removes exactly that key from the dictionary. |
| Stores.AscendingFacts | chrome-extension/src/services/StreamingServiceDB.js:309 | In a store listed in ascending key order (`getAll`), each key appears once, each record sits under its key, and the dictionary has one key per record. |
| KeyOrder.EmptyIsLeast | chrome-extension/src/services/StreamingServiceDB.js:311 | The empty domain, when stored, is the first key in `getAll` order. |
| Strings.StripWww | chrome-extension/src/services/StreamingServiceDB.js:298 | `replace(/^www\./, '')` removes exactly one `www.`, and only at the start. |
| Strings.StripWwwOnce | chrome-extension/src/services/StreamingServiceDB.js:247 | Stripping `www.` + d gives d. |
| Strings.StripWwwIdempotence | chrome-extension/src/services/StreamingServiceDB.js:337 | A second strip changes nothing unless the result still starts with `www.`. "www.www.tv" shows it does change. |
| Strings.ContainsStripped | chrome-extension/src/services/StreamingServiceDB.js:310-311 | A domain contains what one or two strips leave of it. |
| Strings.ContainsIff | chrome-extension/src/detectors/StreamingServiceDetector.js:138 | The recursive `includes` agrees with the existence of an occurrence position. |
| Strings.Trim | chrome-extension/src/detectors/StreamingServiceDetector.js:162 | `trim()` returns text no longer than its input that neither starts nor ends with whitespace. |
| Strings.TrimSlice | chrome-extension/src/detectors/StreamingServiceDetector.js:162 | What `trim()` returns is a slice of its input, and everything dropped before and after that slice is whitespace. |
| Strings.TrimKeeps | chrome-extension/src/detectors/StreamingServiceDetector.js:162-163 | Text with no whitespace at either end is its own trim. |
| Strings.TrimNoSpace | chrome-extension/src/detectors/StreamingServiceDetector.js:162 | A text without any whitespace is its own trim. |
| Strings.ToLowerShape | chrome-extension/src/lib/smart-move-detector.js:92-93 | `toLowerCase` leaves no upper-case letter, turns each upper-case letter into a lower-case one, keeps every other character, and lower-casing again changes nothing. |
| Strings.Split | chrome-extension/src/detectors/StreamingServiceDetector.js:197 | `split(':')` yields at least one piece, and no piece contains the separator. |
| Strings.IndexOf | chrome-extension/src/detectors/StreamingServiceDetector.js:197 | Finds the first position of the separator, and none when it does not occur. |
| Strings.SplitJoin | chrome-extension/src/detectors/StreamingServiceDetector.js:197 | A separator-free piece followed by the separator splits off as the first piece. |
| Strings.NumberOf | chrome-extension/src/detectors/StreamingServiceDetector.js:203 | The model's `Number` is defined exactly on the empty string and on digit strings. |
| Strings.NatToString | chrome-extension/src/content/MovieDetector.js:186 | `toString` returns a digit string without a leading zero, one digit below 10 and two below 100. |
| Strings.NatToStringValue | chrome-extension/src/content/MovieDetector.js:186 | Reading `n.toString()` back gives n. |
| Detection.ExtractDomain | chrome-extension/src/detectors/StreamingServiceDetector.js:343-351 | An unparsable URL gives "". Otherwise the result is the hostname, or the hostname minus one leading `www.`, and a hostname without `www.` is returned as is. |
| Detection.Evict | chrome-extension/src/detectors/StreamingServiceDetector.js:386-391 | Eviction only removes cache entries. |
| Detection.EvictionRespectsFreshness | chrome-extension/src/detectors/StreamingServiceDetector.js:386-391 | Eviction keeps every entry a lookup would use and drops only stale ones. An entry exactly 300000 ms old is kept, but is stale for lookup. |
| Detection.EvictAll | chrome-extension/src/detectors/StreamingServiceDetector.js:387-391 | The eviction loop gives `Evict` of the cache. |
| Detection.Preloaded | chrome-extension/src/detectors/StreamingServiceDetector.js:53-58 | After preloading, a domain is cached exactly when it was cached before or is listed. |
| Detection.PreloadAll | chrome-extension/src/detectors/StreamingServiceDetector.js:53-58 | The preload loop gives `Preloaded` of the cache, the domains and now. |
| Detection.PreloadedSameDomains | chrome-extension/src/detectors/StreamingServiceDetector.js:50-58 | Preloading depends only on which domains are listed. |
| Detection.PreloadedFresh | chrome-extension/src/detectors/StreamingServiceDetector.js:53-58 | Right after preloading, every listed domain is a fresh streaming entry. |
| Detection.StreamingServiceDetector.constructor | chrome-extension/src/detectors/StreamingServiceDetector.js:5-19 | A new detector has an empty cache, is not initialised, and opens a new database over the persisted stores. So `init` can find the seeding flag already set by an earlier session. |
| Detection.StreamingServiceDetector.PreloadDomainCache | chrome-extension/src/detectors/StreamingServiceDetector.js:48-64 | The cache is preloaded with every domain of both stores, stamped now. |
| Detection.StreamingServiceDetector.Init | chrome-extension/src/detectors/StreamingServiceDetector.js:21-46 | On a second call nothing changes. Otherwise the catalog is seeded only when the seeded flag was not truthy, the flag is then set, and the cache is preloaded. |
| Detection.StreamingServiceDetector.IsStreamingSite | chrome-extension/src/detectors/StreamingServiceDetector.js:67-97 | A fresh cache entry answers and nothing changes. Otherwise the database answers, and only that domain's cache entry is rewritten with the answer and now. |
| Detection.StreamingServiceDetector.StoredDomainsResolve | chrome-extension/src/detectors/StreamingServiceDetector.js:48-58 | Every preloaded domain is one the database also reports as streaming. |
| Detection.StreamingServiceDetector.GetServiceInfo | chrome-extension/src/detectors/StreamingServiceDetector.js:100-112 | Returns the database record for the extracted domain, after initialising if needed. |
| Detection.RoleSelector | chrome-extension/src/detectors/StreamingServiceDetector.js:160 | A service has a query for a role exactly when its selector for that role is a non-empty string, and the query is that selector. |
| Detection.TextAt | chrome-extension/src/detectors/StreamingServiceDetector.js:161-166 | Gives the trimmed text of a matched element when that text is not blank, and none when the element is unmatched or blank. |
| Detection.FirstText | chrome-extension/src/detectors/StreamingServiceDetector.js:180-188 | None exactly when every query's text is blank. Otherwise the text of some query. |
| Detection.FirstTextTrimmed | chrome-extension/src/detectors/StreamingServiceDetector.js:182-183 | The chosen title is non-blank and is its own trim. |
| Detection.FindFirstText | chrome-extension/src/detectors/StreamingServiceDetector.js:180-188 | The generic title loop with `break` gives `FirstText`. |
| Detection.ReadTitle | chrome-extension/src/detectors/StreamingServiceDetector.js:160-189 | The title step gives the service's title when there is one, else the generic one, together with its source. |
| Detection.ParsedDuration | chrome-extension/src/detectors/StreamingServiceDetector.js:192-211 | A parsed duration exists only when the video gave none, and it is positive. |
| Detection.ReadDuration | chrome-extension/src/detectors/StreamingServiceDetector.js:192-213 | The duration step reads the text only when the video gave no duration. The bonus is given exactly when the parse is positive. |
| Detection.MatchesAnyPattern | chrome-extension/src/detectors/StreamingServiceDetector.js:136-139 | The URL matches exactly when it contains one of the service's patterns. |
| Detection.Score | chrome-extension/src/detectors/StreamingServiceDetector.js:135-216 | The step-by-step accumulation equals the verdict `Classify`. |
| Detection.ReportedIffAboveThreshold | chrome-extension/src/detectors/StreamingServiceDetector.js:216 | A context is returned exactly when the confidence exceeds 0.3, counting the float case 0.2 + 0.1. |
| Detection.ReportedContext | chrome-extension/src/detectors/StreamingServiceDetector.js:124-216 | A returned context names the service, is a movie page and has confidence between 0.3 and 1.0. |
| Detection.TitlePrecedence | chrome-extension/src/detectors/StreamingServiceDetector.js:160-189 | The service's title wins. The generic list is used only without it. Any title is non-blank trimmed text. |
| Detection.VideoDurationWins | chrome-extension/src/detectors/StreamingServiceDetector.js:155-192 | A video with a positive finite length fixes the duration, and no duration bonus is given. |
| Detection.VideoAloneIsNotEnough | chrome-extension/src/detectors/StreamingServiceDetector.js:148-157 | A page whose only sign is a video stays at 0.3 and is not reported. |
| Detection.StreamingServiceDetector.DetectMovieContext | chrome-extension/src/detectors/StreamingServiceDetector.js:115-217 | Returns none when no service resolves, else `Classify` of the service, URL and page. |
| Detection.CommonPatternPlain | chrome-extension/src/detectors/StreamingServiceDetector.js:274-278 | A common pattern applies exactly when the path contains it. |
| Detection.PathPatterns | chrome-extension/src/detectors/StreamingServiceDetector.js:274-278 | No more patterns are kept than there are candidates. |
| Detection.PathPatternsMembers | chrome-extension/src/detectors/StreamingServiceDetector.js:274-278 | The kept patterns are exactly the candidates the path contains. |
| Detection.PathPatternsNoDup | chrome-extension/src/detectors/StreamingServiceDetector.js:274-278 | Distinct candidates give distinct patterns. |
| Detection.FindPathPatterns | chrome-extension/src/detectors/StreamingServiceDetector.js:274-278 | The `forEach` with `push` gives `PathPatterns`. |
| Detection.UrlPatternsShape | chrome-extension/src/detectors/StreamingServiceDetector.js:256-292 | The patterns are distinct, at most ten, exactly the candidates the URL shows, and [] when the URL does not parse. |
| Detection.StreamingServiceDetector.AnalyzeUrlPatterns | chrome-extension/src/detectors/StreamingServiceDetector.js:256-292 | Returns `UrlPatterns` of the location. |
| Detection.FirstTitleQuery | chrome-extension/src/detectors/StreamingServiceDetector.js:308-314 | The first candidate with a text longer than 3 after trimming: none exactly when no candidate qualifies, and `h1` when it qualifies. |
| Detection.FirstTimeQuery | chrome-extension/src/detectors/StreamingServiceDetector.js:331-337 | The first candidate whose text shows `d:d`, and none exactly when no candidate does. |
| Detection.FindTitleQuery | chrome-extension/src/detectors/StreamingServiceDetector.js:308-314 | The title loop with `break` gives `FirstTitleQuery`. |
| Detection.FindTimeQuery | chrome-extension/src/detectors/StreamingServiceDetector.js:331-337 | The duration loop with `break` gives `FirstTimeQuery`. |
| Detection.SelectorMapRoles | chrome-extension/src/detectors/StreamingServiceDetector.js:296-339 | The selectors object has at most the roles title, video and duration, each present exactly when found and holding the found query. |
| Detection.PageHintsFound | chrome-extension/src/detectors/StreamingServiceDetector.js:295-340 | A title query is found exactly when some candidate qualifies (`h1` first). `video` is found exactly when the page has a video. A duration query is found exactly when some candidate shows a time. |
| Detection.StreamingServiceDetector.AnalyzePageSelectors | chrome-extension/src/detectors/StreamingServiceDetector.js:295-340 | Returns the selector map of the page's hints. |
| Detection.TaughtMetadata | chrome-extension/src/detectors/StreamingServiceDetector.js:232-237 | The metadata keeps the hint's name and category and forces confidence 0.7. Its patterns are the hint's followed by the derived ones, not de-duplicated. Derived selectors override hinted ones, and a hinted selector the page did not derive keeps its hinted value. |
| Detection.TaughtTwice | chrome-extension/src/detectors/StreamingServiceDetector.js:220-245 | Teaching a new domain writes a record at 0.7 counting one movie. Teaching it again counts two, raises confidence to 0.8 and merges patterns without duplicates. |
| Detection.StreamingServiceDetector.AddUserDiscoveredService | chrome-extension/src/detectors/StreamingServiceDetector.js:220-253 | The registry record is `Discover` with the taught metadata. The domain's cache entry becomes streaming at now. |
| Detection.StreamingServiceDetector.Cleanup | chrome-extension/src/detectors/StreamingServiceDetector.js:383-400 | The cache becomes `Evict` of the cache. The database is purged with a 90-day window. Known services and preferences are untouched. |
| Durations.PartValues | chrome-extension/src/detectors/StreamingServiceDetector.js:197 | `map(Number)` is defined exactly when every piece is a digit string, piece by piece. |
| Durations.ReadThree | chrome-extension/src/detectors/StreamingServiceDetector.js:199-200 | Three digit pieces read as H·3600 + M·60 + S. |
| Durations.SplitThree | chrome-extension/src/detectors/StreamingServiceDetector.js:197 | Three colon-free pieces joined by `:` split back into those pieces. |
| Durations.ReadTwo | chrome-extension/src/detectors/StreamingServiceDetector.js:201-202 | Two digit pieces read as M·60 + S. |
| Durations.ReadsHoursMinutesSeconds | chrome-extension/src/detectors/StreamingServiceDetector.js:199-200 | "1:02:03" reads as 3723. |
| Durations.ReadsMinutesSeconds | chrome-extension/src/detectors/StreamingServiceDetector.js:201-202 | "5:30" reads as 330. |
| Durations.ReadsBareMinutes | chrome-extension/src/detectors/StreamingServiceDetector.js:203-204 | A bare "10" reads as 600 seconds. |
| Durations.NonNumericReadsZero | chrome-extension/src/detectors/StreamingServiceDetector.js:203-207 | A text that is not a number reads as 0, so no duration is set. |
| Durations.TrimClockText | chrome-extension/src/detectors/StreamingServiceDetector.js:196 | A text of digits and `:` is its own trim. |
| Durations.Pad2 | chrome-extension/src/content/MovieDetector.js:186 | `padStart(2, '0')` yields at least two digits, exactly two below 100. |
| Durations.Pad2Value | chrome-extension/src/content/MovieDetector.js:186 | A padded number reads back as itself. |
| Durations.FormatDurationShape | chrome-extension/src/content/MovieDetector.js:180-192 | 0 prints "N/A". From one hour up the text is `h:mm:ss`, otherwise `m:ss`, with every padded piece two digits and each piece's value that of the hours, minutes and seconds. |
| Durations.ClockArithmetic | chrome-extension/src/content/MovieDetector.js:182-184 | h·3600 + m·60 + s gives back the seconds, and so does m·60 + s when h is 0. |
| Durations.ParseHours | chrome-extension/src/content/MovieDetector.js:188-189 | For n of an hour or more, parsing the `h:mm:ss` text gives n back. |
| Durations.ParseMinutes | chrome-extension/src/content/MovieDetector.js:191 | For 0 < n < 3600, parsing the `m:ss` text gives n back. |
| Durations.FormatThenParse | chrome-extension/src/content/MovieDetector.js:180-192 | For every n > 0, the detector's text parser applied to `formatDuration(n)` gives n back. |
| Durations.DigitRunEnd | chrome-extension/src/lib/smart-move-detector.js:307 | The greedy digit run `\d+` ends at the first non-digit. |
| Durations.TimeMatchIffShape | chrome-extension/src/detectors/StreamingServiceDetector.js:333 | The text has an `a:b` match exactly when some digit is followed by `:` and a digit. |
| Durations.FirstMatchIgnoresHours | chrome-extension/src/lib/smart-move-detector.js:307 | The first match of `(\d+):(\d+)` in "1:02:03" is (1, 2). |
| MovieDetection.MovieDetector.constructor | chrome-extension/src/content/MovieDetector.js:4-11 | A new detector has no current movie, is inactive and uninitialised, and has no observers, no timer and no messages. |
| MovieDetection.MovieDetector.IsReady | chrome-extension/src/content/MovieDetector.js:42-44 | `isReady` is true exactly when the detector is initialised. |
| MovieDetection.ProgressRound | chrome-extension/src/content/MovieDetector.js:79-93 | Only a change of position or length sends one progress message. It updates position, length and timestamp, and every other field of the movie stays. |
| MovieDetection.DetectRound | chrome-extension/src/content/MovieDetector.js:52-77 | A missing or untitled context clears the movie and sends nothing. A new title or URL replaces the movie and sends one detection. Otherwise the round is `ProgressRound`. At most one message is sent. |
| MovieDetection.RepeatIsQuiet | chrome-extension/src/content/MovieDetector.js:58-92 | The same verdict a second time sends nothing and keeps the movie. |
| MovieDetection.KnownMovieOnlyProgresses | chrome-extension/src/content/MovieDetector.js:58-69 | While title and URL stay, a round sends only progress messages. |
| MovieDetection.MovieDetector.DetectMovie | chrome-extension/src/content/MovieDetector.js:52-77 | An inactive or uninitialised detector changes nothing. Otherwise the movie and the message log follow `DetectRound`, and all other state stays. |
| MovieDetection.MovieDetector.UpdateProgress | chrome-extension/src/content/MovieDetector.js:79-93 | Without a current movie nothing changes. Otherwise the movie and the log follow `ProgressRound`. |
| MovieDetection.MovieDetector.OnMovieDetected | chrome-extension/src/content/MovieDetector.js:152-169 | Appends one detection message carrying the movie, and changes nothing else. |
| MovieDetection.MovieDetector.OnProgressUpdate | chrome-extension/src/content/MovieDetector.js:171-178 | Appends one progress message carrying the movie, and changes nothing else. |
| MovieDetection.MovieDetector.Init | chrome-extension/src/content/MovieDetector.js:13-39 | Init ends initialised and does nothing when already initialised. Off a streaming site, or after an error, nothing else changes. On one, the detector becomes active, runs a first round, and starts the timer and the two observers. |
| MovieDetection.MovieDetector.StartDetection | chrome-extension/src/content/MovieDetector.js:46-50 | Runs a first round, then the timer and the observers are set. |
| MovieDetection.MovieDetector.SetupObservers | chrome-extension/src/content/MovieDetector.js:95-150 | The observers become exactly `videoDom` and `title`, and nothing else changes. |
| MovieDetection.MovieDetector.Destroy | chrome-extension/src/content/MovieDetector.js:206-222 | The detector becomes inactive and uninitialised with no observers and no timer, so later rounds are ignored. |
| Background.ServiceWorker.constructor | chrome-extension/dist/background/service-worker.js:5-9 | The table starts as what storage held. |
| Background.DetectedEntry | chrome-extension/dist/background/service-worker.js:35-40 | The entry holds the message's fields plus `tabId`, `lastUpdated` = now, and `firstDetected` = the truthy incoming value or now. |
| Background.ServiceWorker.HandleMovieDetected | chrome-extension/dist/background/service-worker.js:30-59 | The table is written or overwritten at key `serviceName_title_tabId` with `DetectedEntry`, and only there. |
| Background.ProgressEntry | chrome-extension/dist/background/service-worker.js:66-70 | Incoming fields override stored ones, stored fields the message lacks are kept, and `lastUpdated` is now. |
| Background.ServiceWorker.HandleProgressUpdate | chrome-extension/dist/background/service-worker.js:61-82 | An unknown key changes nothing. A known key is rewritten with `ProgressEntry`, and only there. |
| Background.ProgressAfterDetection | chrome-extension/dist/background/service-worker.js:35-70 | A progress update keeps the tab and the first-detection time of an entry written by a detection. |
| Background.WithoutTab | chrome-extension/dist/background/service-worker.js:93-97 | After a tab closes, an entry is kept exactly when its `tabId` is not the closed tab's, and is unchanged. |
| Background.ServiceWorker.OnTabRemoved | chrome-extension/dist/background/service-worker.js:85-100 | The deletion loop leaves the table equal to `WithoutTab`. |
| Background.DetectedThenClosed | chrome-extension/dist/background/service-worker.js:32-97 | An entry written for a tab is gone once that tab closes. |
| Background.ServiceWorker.OnMessage | chrome-extension/dist/background/service-worker.js:12-28 | `MOVIE_DETECTED` and `PROGRESS_UPDATE` go to their handlers. Any other type changes nothing. The listener returns true. |
| Background.ContextObject | chrome-extension/src/content/MovieDetector.js:194-197 | The message data carries the service name and title and no `tabId` or `firstDetected`. A missing title is written as `null`. In the source the key is left undefined and dropped from the message, but no message is sent for a context without a title. |
| Background.ProgressKeyMatchesDetection | chrome-extension/dist/background/service-worker.js:63 | Every progress message of a round addresses the same table key as the detection that announced the movie. |
| SmartDetection.LookalikeHostIsKnown | chrome-extension/src/lib/smart-move-detector.js:121-125 | Only containment is checked, so "netflix.com.example.org" counts as known. |
| SmartDetection.KeywordCount | chrome-extension/src/lib/smart-move-detector.js:148-152 | The keyword score is at most the number of keywords. It is 0 exactly when none occurs and full exactly when all occur. |
| SmartDetection.CountKeywords | chrome-extension/src/lib/smart-move-detector.js:148-152 | The `forEach` gives `KeywordCount`. |
| SmartDetection.UrlScoreBounds | chrome-extension/src/lib/smart-move-detector.js:144-165 | The URL score is at most 12, and 0 exactly when no keyword, video extension or streaming path occurs. |
| SmartDetection.AnalyzeUrl | chrome-extension/src/lib/smart-move-detector.js:144-165 | The accumulation equals the URL score. |
| SmartDetection.ContentScoreBounds | chrome-extension/src/lib/smart-move-detector.js:167-196 | The content score is at most 6. A fullscreen-capable video scores at least 3. |
| SmartDetection.AnalyzePageContent | chrome-extension/src/lib/smart-move-detector.js:167-196 | The accumulation equals the content score. |
| SmartDetection.AnalyzeStreamingSite | chrome-extension/src/lib/smart-move-detector.js:127-142 | A known site has confidence 0.9 and is a movie site exactly when it shows a video, controls or progress. |
| SmartDetection.MovieSiteVerdict | chrome-extension/src/lib/smart-move-detector.js:90-119 | Confidence is at most 1. An unknown site is a movie site exactly when total ≥ 3, with confidence min(total/5, 1). A known site gets 0.9. A reported movie site has at least 0.6. |
| SmartDetection.KnownSiteIgnoresUrl | chrome-extension/src/lib/smart-move-detector.js:96-98 | A known site without video, controls or progress is not a movie site, whatever its URL. |
| SmartDetection.DetectMovieSite | chrome-extension/src/lib/smart-move-detector.js:90-119 | `detectMovieSite` equals `MovieSite` over the lower-cased URL and path. |
| SmartDetection.LeadWord | chrome-extension/src/lib/smart-move-detector.js:283 | A leading word is one of watch, stream or play (any case), followed by whitespace. |
| SmartDetection.StripLead | chrome-extension/src/lib/smart-move-detector.js:283 | Stripping the lead leaves a suffix of the input. |
| SmartDetection.FirstCut | chrome-extension/src/lib/smart-move-detector.js:284-287 | Finds the leftmost position where a tail expression matches, and none when it matches nowhere. |
| SmartDetection.CutTail | chrome-extension/src/lib/smart-move-detector.js:284-287 | Each tail replacement leaves a prefix. |
| SmartDetection.CutTails | chrome-extension/src/lib/smart-move-detector.js:284-287 | The four tail replacements together leave a prefix. |
| SmartDetection.CleanTitle | chrome-extension/src/lib/smart-move-detector.js:281-289 | The cleaned title is a contiguous slice of the input that neither starts nor ends with whitespace. |
| SmartDetection.CleanTitleSteps | chrome-extension/src/lib/smart-move-detector.js:281-289 | `cleanTitle` strips the lead word, then cuts the pipe, season, year and episode tails in that order, then trims. |
| SmartDetection.CleanTitleCutsYear | chrome-extension/src/lib/smart-move-detector.js:286 | "Movie (2020)" is cleaned to "Movie": only the year tail matches, at the one space. |
| SmartDetection.CleanTitleDropsLeadWord | chrome-extension/src/lib/smart-move-detector.js:283 | A leading "Watch ", "Stream " or "Play ", in any case, is removed with its space. |
| SmartDetection.ExtractedTitle | chrome-extension/src/lib/smart-move-detector.js:258-279 | The title is no longer than the chosen text, or no longer than the document title when no candidate has text. |
| SmartDetection.ExtractTitle | chrome-extension/src/lib/smart-move-detector.js:258-279 | The loop with early return gives `ExtractedTitle`. |
| SmartDetection.FindVideoElement | chrome-extension/src/lib/smart-move-detector.js:291-295 | Returns the first of the three queries that matches, `video` when present, and none exactly when none matches. |
| SmartDetection.TextReading | chrome-extension/src/lib/smart-move-detector.js:305-311 | Reads the first text with an `a:b` as a·60 + b, and none exactly when no text has one. |
| SmartDetection.ReadingIgnoresHours | chrome-extension/src/lib/smart-move-detector.js:307-309 | "1:02:03" reads as 62. |
| SmartDetection.FirstReading | chrome-extension/src/lib/smart-move-detector.js:304-313 | The loop with early return gives `TextReading`. |
| SmartDetection.ExtractedDuration | chrome-extension/src/lib/smart-move-detector.js:297-314 | A truthy video duration wins. The result is never NaN. Without one, the result is null exactly when no duration text shows a time. |
| SmartDetection.ExtractDuration | chrome-extension/src/lib/smart-move-detector.js:297-314 | The method gives `ExtractedDuration`. |
| SmartDetection.ExtractedCurrentTime | chrome-extension/src/lib/smart-move-detector.js:316-333 | A non-zero video position wins. Without one, the result is null exactly when no current-time text shows a time. |
| SmartDetection.ExtractCurrentTime | chrome-extension/src/lib/smart-move-detector.js:316-333 | The method gives `ExtractedCurrentTime`. |
| SmartDetection.ExtractMovieInfo | chrome-extension/src/lib/smart-move-detector.js:234-256 | Null exactly when the page is not a movie site. Otherwise the record of the extractors' readings, with confidence at least 0.6. |

## Left out

- **IndexedDB plumbing.** Not modelled: opening the database, `onupgradeneeded`, transactions, `ensureReady`, `promisifyRequest` and `close`. Each operation is one atomic step on the stores. Async interleaving of two operations is not modelled.
- **Cursor mechanics.** Cursors are modelled as the list they visit.
- **`getDiscoveryStats`.** It is not modelled. It calls `.filter` on the object `getAllServices` returns, so it always ends in the caught `TypeError` and returns `null` (chrome-extension/src/detectors/StreamingServiceDetector.js:354-380).
- **`exportServices`.** Not modelled as its own member: it returns what `exportData` returns, and `exportData` is modelled.
- **Floating point.** Confidences are tenths and durations whole seconds.
  - Sums such as 0.7 + 0.1, which floating point gives as 0.7999…, are exact here. Only the 0.2 + 0.1 case of the verdict is encoded as floating point gives it.
  - A fractional `currentTime` is not modelled.
  - `formatDuration` of `NaN` is not modelled, since its input is a natural number.
- **The message confidence.** The context the content script sends does not carry its confidence, which is a fraction.
- **The DOM.**
  - A page is a snapshot: which selectors match, their texts, and the videos.
  - `querySelector`'s matching rules are not modelled, and selector strings are opaque.
  - Not modelled: the mutation observers and video event listeners as callbacks, the overlay, the `CustomEvent` on `window`, and the aliasing between `currentMovie` and the dispatched event.
  - The observers and the timer are recorded only as being set or cleared.
- **Chrome APIs.**
  - `chrome.runtime` messaging is not modelled; the messages sent are kept as a log.
  - The `chrome.storage.local` persistence of the worker's table is left out: the table starts from a given value and writing it back is not modelled.
  - Badges are left out, and so is a message without `sender.tab`.
- **URL parsing** follows the WHATWG URL Standard and is not modelled. Its result is given.
- **MovieDetection.MovieDetector.DetectMovie** takes the verdict as a value, so it does not model the `catch` at chrome-extension/src/content/MovieDetector.js:74-76. There, a `detectMovieContext` that throws leaves `currentMovie` as it was and sends nothing. With the catalog's own selectors the call does not throw.
- **MovieDetection.MovieDetector.Init** takes the service detector's answers as parameters. These are whether the site is a streaming site, or whether the call threw, and the first round's verdict. It does not call the detector object.
- **Text.** Strings are sequences of characters; UTF-16 surrogate pairs are not distinguished. `toLowerCase` and the capitalisation in `extractServiceName` fold ASCII letters only.
- **Registry.StreamingServiceDB.Cleanup** and **Detection.StreamingServiceDetector.Cleanup** use the intended content purge. The purge as written removes nothing, and is modelled separately (see Findings).
- **Strings.NumberOf** reads as `NaN` every text that is not a digit string. JavaScript's `Number` also reads signed digit strings ("-30", "+5"), "Infinity", surrounding whitespace, decimals, hex digits and exponents. A duration such as "1:-30" is 60 − 30 = 30 seconds in the detector, which sets the duration and adds 0.1; here it gives no duration. The text "Infinity" makes the detector's duration `Infinity`, with the bonus; here it gives no duration. A duration is a natural number, so it cannot be infinite or fractional.
- **SmartDetection.ExtractedTitle** states only that its result is no longer than the text chosen, not that it is trimmed. The trimming is stated by `SmartDetection.CleanTitle`, which produces it.
- **Strings.StripWwwIdempotence** shows that `replace(/^www\./, '')` is not idempotent: on "www.www.tv" a second strip changes the result. So the registry's lookup, which strips again, can differ from the detector's `extractDomain` on such hosts.

## Findings

| source | as written | input that shows it | evidently intended | confidence | as-written member | corrected member |
|---|---|---|---|---|---|---|
| chrome-extension/src/services/StreamingServiceDB.js:535-547 | `cleanup` opens a cursor over the `lastWatched` index and sets an `onsuccess` handler that deletes each entry and continues (line 540). `promisifyRequest(request)` at line 547 then reassigns `request.onsuccess` (line 522) before any event fires, so the deleting handler never runs and no watch entry is removed. | One entry with `lastWatched` 0, and `cleanup(90)` at `now` = 90 · 86 400 000: the entry survives. | Every watch entry with `lastWatched` at or before now − days · 86 400 000 is deleted, and the newer ones are kept. | not executed | Registry.StaleContentSurvivesAsWritten | Registry.PurgeContent |

The as-written purge is `Registry.PurgeContentAsWritten`, the identity on the content store. The corrected purge is `Registry.KeepRecent`, and `Registry.PurgeContent` implements it as the cursor walk of lines 535-546 with the deletions taking effect. This corrected purge is what `Registry.StreamingServiceDB.Cleanup` applies to the content store.
