/**
 * The records of the service registry (`StreamingServiceDB`) and the rules
 * by which a discovered service is created and re-discovered.
 *
 * Confidences are integer tenths (0.7 is 7); times are milliseconds since
 * the epoch, as `Date` values compare.
 */
module Services {
  import opened Wrappers
  import opened Strings
  import opened JsValues

  /** Where a record lives: the built-in catalog store or the discovered store. */
  datatype Origin =
    | Known(addedDate: int)
    | Discovered(firstDetected: int, lastSeen: int, movieCount: nat, confidence: nat)

  /** A streaming service record; `domain` is its key in the store. */
  datatype ServiceRecord = ServiceRecord(
    domain: string,
    name: string,
    category: string,
    patterns: seq<string>,
    selectors: map<string, string>,   // role ("title", "duration", ...) to DOM query
    origin: Origin)

  /** The optional fields a caller may pass to `addDiscoveredService`. */
  datatype Metadata = Metadata(
    name: Option<string>,
    category: Option<string>,
    patterns: Option<seq<string>>,
    selectors: Option<map<string, string>>,
    confidence: Option<nat>)

  const NoMetadata := Metadata(None, None, None, None, None)

  /** `text || fallback` for an optional string: the empty string is falsy. */
  function StringOr(text: Option<string>, fallback: string): (r: string)
    ensures text.Some? && text.value != "" ==> r == text.value
    ensures text.None? || text.value == "" ==> r == fallback
  {
    if text.Some? && text.value != "" then text.value else fallback
  }

  // ---------------------------------------------------------------- extractServiceName

  predicate IsWordChar(c: char) {
    ('a' <= c <= 'z') || ('A' <= c <= 'Z') || ('0' <= c <= '9') || c == '_'
  }

  function UpperChar(c: char): char {
    if 'a' <= c <= 'z' then (c as int - 'a' as int + 'A' as int) as char else c
  }

  /** The regular expression `\b\w` matches at `i`. */
  predicate WordStart(s: string, i: int)
    requires 0 <= i < |s|
  {
    IsWordChar(s[i]) && (i == 0 || !IsWordChar(s[i - 1]))
  }

  /** The first dot-separated label of the domain, without a leading `www.`. */
  function FirstLabel(domain: string): (r: string)
    ensures '.' !in r
    ensures IsPrefix(r, StripWww(domain))
    ensures |r| == |StripWww(domain)| || StripWww(domain)[|r|] == '.'
  {
    var d := StripWww(domain);
    match IndexOf(d, '.')
    case None => assert Split(d, '.') == [d]; Split(d, '.')[0]
    case Some(i) => assert Split(d, '.')[0] == d[..i]; Split(d, '.')[0]
  }

  /** `s.replace(/[-_]/g, ' ')`. */
  function DashesToSpaces(s: string): (r: string)
    ensures |r| == |s|
    ensures forall i :: 0 <= i < |s| ==> r[i] == if s[i] in "-_" then ' ' else s[i]
  {
    if s == [] then [] else [if s[0] in "-_" then ' ' else s[0]] + DashesToSpaces(s[1..])
  }

  /** `s.replace(/\b\w/g, l => l.toUpperCase())`. */
  function CapitalizeWords(s: string): (r: string)
    ensures |r| == |s|
    ensures forall i :: 0 <= i < |s| ==> r[i] == if WordStart(s, i) then UpperChar(s[i]) else s[i]
  {
    seq(|s|, i requires 0 <= i < |s| => if WordStart(s, i) then UpperChar(s[i]) else s[i])
  }

  /** A letter's upper case is still a word character, and any other character is its own upper case. */
  lemma UpperKeepsWordChar(c: char)
    ensures IsWordChar(UpperChar(c)) == IsWordChar(c)
    ensures !('a' <= UpperChar(c) <= 'z')
    ensures !('a' <= c <= 'z') ==> UpperChar(c) == c
  {
  }

  /**
   * Capitalising keeps the word starts where they were, leaves no word
   * starting with a lower-case letter, keeps every other character, and
   * capitalising again changes nothing.
   */
  lemma CapitalizeWordsShape(s: string)
    ensures forall i :: 0 <= i < |s| ==> (WordStart(CapitalizeWords(s), i) <==> WordStart(s, i))
    ensures forall i :: 0 <= i < |s| && WordStart(CapitalizeWords(s), i) ==> !('a' <= CapitalizeWords(s)[i] <= 'z')
    ensures forall i :: 0 <= i < |s| && !WordStart(s, i) ==> CapitalizeWords(s)[i] == s[i]
    ensures CapitalizeWords(CapitalizeWords(s)) == CapitalizeWords(s)
  {
    var r := CapitalizeWords(s);
    forall i | 0 <= i < |s| ensures IsWordChar(r[i]) == IsWordChar(s[i]) {
      UpperKeepsWordChar(s[i]);
    }
    forall i | 0 <= i < |s| ensures WordStart(r, i) <==> WordStart(s, i) {
      if i > 0 {
        assert IsWordChar(r[i - 1]) == IsWordChar(s[i - 1]);
      }
    }
    forall i | 0 <= i < |s| && WordStart(s, i) ensures !('a' <= r[i] <= 'z') && UpperChar(r[i]) == r[i] {
      UpperKeepsWordChar(s[i]);
      UpperKeepsWordChar(r[i]);
    }
    assert CapitalizeWords(r) == r by {
      forall i | 0 <= i < |r| ensures CapitalizeWords(r)[i] == r[i] {
        if WordStart(r, i) {
          assert WordStart(s, i);
        }
      }
    }
  }

  /**
   * `extractServiceName`: the first label of the domain with `-` and `_` turned
   * into spaces and every word's first letter upper-cased
   * ("www.my-tv.com" becomes "My Tv").
   */
  function ExtractServiceName(domain: string): (r: string)
    ensures |r| == |FirstLabel(domain)|
    ensures forall i :: 0 <= i < |r| ==> r[i] != '.' && r[i] != '-' && r[i] != '_'
    ensures forall i :: 0 <= i < |r| && WordStart(r, i) ==> !('a' <= r[i] <= 'z')
    ensures var l := FirstLabel(domain);
      forall i :: 0 <= i < |r| ==>
        r[i] == (var c := if l[i] in "-_" then ' ' else l[i]; if WordStart(r, i) then UpperChar(c) else c)
  {
    var word := FirstLabel(domain);
    NameShape(word);
    CapitalizeWords(DashesToSpaces(word))
  }

  /** A dot-free label comes out free of separators, with every word capitalized. */
  lemma NameShape(word: string)
    requires '.' !in word
    ensures var r := CapitalizeWords(DashesToSpaces(word));
      && |r| == |word|
      && (forall i :: 0 <= i < |r| ==> r[i] != '.' && r[i] != '-' && r[i] != '_')
      && (forall i :: 0 <= i < |r| && WordStart(r, i) ==> !('a' <= r[i] <= 'z'))
      && (forall i :: 0 <= i < |r| ==>
            r[i] == (var c := if word[i] in "-_" then ' ' else word[i]; if WordStart(r, i) then UpperChar(c) else c))
  {
    var d := DashesToSpaces(word);
    var r := CapitalizeWords(d);
    CapitalizeWordsShape(d);
    forall i | 0 <= i < |r| ensures r[i] != '.' && r[i] != '-' && r[i] != '_' {
      assert word[i] != '.';
    }
    forall i | 0 <= i < |r| && WordStart(r, i) ensures !('a' <= r[i] <= 'z') {
      assert WordStart(d, i);
    }
  }

  /** A dot-free label followed by a dot is the first label. */
  lemma FirstLabelIs(domain: string, w: string)
    requires '.' !in w && IsPrefix(w + ".", StripWww(domain))
    ensures FirstLabel(domain) == w
  {
    var h := StripWww(domain);
    var l := FirstLabel(domain);
    assert h[|w|] == (w + ".")[|w|] == '.';
    assert l == h[..|w|] == w;
  }

  /** Text with no `-` or `_` is left as it is by `DashesToSpaces`. */
  lemma DashFreeKept(s: string)
    requires forall i :: 0 <= i < |s| ==> s[i] != '-' && s[i] != '_'
    ensures DashesToSpaces(s) == s
  {
  }

  /** A run of lower-case letters is one word: only its first letter is upper-cased. */
  lemma OneWordCapitalized(w: string)
    requires w != [] && forall i :: 0 <= i < |w| ==> 'a' <= w[i] <= 'z'
    ensures CapitalizeWords(w) == [UpperChar(w[0])] + w[1..]
  {
    var r := CapitalizeWords(w);
    forall i | 0 <= i < |w| ensures r[i] == ([UpperChar(w[0])] + w[1..])[i] {
      if i > 0 {
        assert IsWordChar(w[i - 1]);
        assert !WordStart(w, i);
      }
    }
  }

  /** A domain whose first label is one lower-case word is named by that word, capitalized. */
  lemma OneWordDomainName(domain: string, w: string)
    requires w != [] && forall i :: 0 <= i < |w| ==> 'a' <= w[i] <= 'z'
    requires IsPrefix(w + ".", StripWww(domain))
    ensures ExtractServiceName(domain) == [UpperChar(w[0])] + w[1..]
  {
    FirstLabelIs(domain, w);
    DashFreeKept(w);
    OneWordCapitalized(w);
  }

  /** "www.netflix.com" loses its `www.` and then starts with "netflix.". */
  lemma NetflixPrefix(domain: string)
    requires domain == "www.netflix.com"
    ensures IsPrefix("netflix" + ".", StripWww(domain))
  {
    assert domain[..|Www|] == Www;
    assert StripWww(domain)[..8] == "netflix.";
  }

  /** "netflix" is one lower-case word, and it capitalizes to "Netflix". */
  lemma NetflixWord(w: string)
    requires w == "netflix"
    ensures w != [] && (forall i :: 0 <= i < |w| ==> 'a' <= w[i] <= 'z') && [UpperChar(w[0])] + w[1..] == "Netflix"
  {
    assert UpperChar(w[0]) == 'N';
  }

  /** A domain whose first label is "netflix" is named "Netflix". */
  lemma NetflixLabelName(domain: string, w: string)
    requires w == "netflix" && IsPrefix(w + ".", StripWww(domain))
    ensures ExtractServiceName(domain) == "Netflix"
  {
    NetflixWord(w);
    OneWordDomainName(domain, w);
  }

  /** The name the registry gives "www.netflix.com" is "Netflix". */
  lemma NetflixName(domain: string)
    requires domain == "www.netflix.com"
    ensures ExtractServiceName(domain) == "Netflix"
  {
    NetflixPrefix(domain);
    NetflixLabelName(domain, "netflix");
  }

  // ---------------------------------------------------------------- discovery rules

  const DefaultConfidence: nat := 5     // 0.5
  const MaxConfidence: nat := 10        // 1.0
  const PurgeConfidence: nat := 3       // 0.3

  function Min(a: int, b: int): int {
    if a <= b then a else b
  }

  /** The record `addDiscoveredService` inserts for a domain it has not seen. */
  function NewDiscovered(domain: string, md: Metadata, now: int): (r: ServiceRecord)
    ensures r.domain == StripWww(domain)
    ensures r.name == StringOr(md.name, ExtractServiceName(domain))
    ensures r.category == StringOr(md.category, "unknown")
    ensures r.patterns == md.patterns.GetOr([]) && r.selectors == md.selectors.GetOr(map[])
    ensures r.origin == Discovered(now, now, 1,
      if md.confidence.Some? && md.confidence.value != 0 then md.confidence.value else DefaultConfidence)
  {
    ServiceRecord(
      StripWww(domain),
      StringOr(md.name, ExtractServiceName(domain)),
      StringOr(md.category, "unknown"),
      md.patterns.GetOr([]),
      md.selectors.GetOr(map[]),
      Discovered(now, now, 1, if md.confidence.Some? && md.confidence.value != 0 then md.confidence.value else DefaultConfidence))
  }

  /** `[...new Set([...existing, ...added])]`. */
  function MergePatterns(existing: seq<string>, added: seq<string>): (r: seq<string>)
    ensures NoDup(r)
    ensures forall p :: p in r <==> p in existing || p in added
    ensures NoDup(existing) ==> |r| >= |existing| && r[..|existing|] == existing
  {
    var r := Dedup(existing + added);
    assert NoDup(existing) ==> |r| >= |existing| && r[..|existing|] == existing by {
      if NoDup(existing) { DedupKeepsPrefix(existing, added); }
    }
    assert forall p :: p in existing + added <==> p in existing || p in added;
    r
  }

  /**
   * The update `addDiscoveredService` applies to the stored record of a
   * domain it has seen before.
   */
  function MergeDiscovered(existing: ServiceRecord, md: Metadata, now: int): (r: ServiceRecord)
    requires existing.origin.Discovered?
    ensures r.domain == existing.domain && r.name == existing.name && r.category == existing.category
    ensures r.origin.Discovered? && r.origin.firstDetected == existing.origin.firstDetected
    ensures r.origin.lastSeen == now
    ensures r.origin.movieCount == existing.origin.movieCount + 1
    ensures r.origin.confidence == Min(existing.origin.confidence + 1, MaxConfidence)
    ensures md.patterns.None? ==> r.patterns == existing.patterns
    ensures md.patterns.Some? ==> r.patterns == MergePatterns(existing.patterns, md.patterns.value)
    ensures forall role :: role in r.selectors <==>
      role in existing.selectors || (md.selectors.Some? && role in md.selectors.value)
    ensures forall role :: role in r.selectors ==>
      r.selectors[role] == if md.selectors.Some? && role in md.selectors.value
                           then md.selectors.value[role] else existing.selectors[role]
  {
    var o := existing.origin;
    existing.(
      patterns := if md.patterns.Some? then MergePatterns(existing.patterns, md.patterns.value) else existing.patterns,
      selectors := if md.selectors.Some? then existing.selectors + md.selectors.value else existing.selectors,
      origin := o.(lastSeen := now, movieCount := o.movieCount + 1, confidence := Min(o.confidence + 1, MaxConfidence)))
  }

  /** `n` further sightings of an already discovered domain. */
  function Rediscover(r: ServiceRecord, md: Metadata, now: int, n: nat): (r': ServiceRecord)
    requires r.origin.Discovered?
    ensures r'.origin.Discovered?
  {
    if n == 0 then r else MergeDiscovered(Rediscover(r, md, now, n - 1), md, now)
  }

  /**
   * Confidence grows by a tenth per sighting up to 1.0, and the movie count
   * by one: after a first discovery at 0.7 and `n` more, confidence is
   * min(0.7 + 0.1 n, 1.0).
   */
  lemma {:induction false} RediscoverConfidence(r: ServiceRecord, md: Metadata, now: int, n: nat)
    requires r.origin.Discovered? && r.origin.confidence <= MaxConfidence
    ensures Rediscover(r, md, now, n).origin.confidence == Min(r.origin.confidence + n, MaxConfidence)
    ensures Rediscover(r, md, now, n).origin.movieCount == r.origin.movieCount + n
    ensures Rediscover(r, md, now, n).name == r.name
  {
    if n > 0 { RediscoverConfidence(r, md, now, n - 1); }
  }

  /** More sightings never lower the confidence of a record at or below 1.0. */
  lemma RediscoverMonotonic(r: ServiceRecord, md: Metadata, now: int, m: nat, n: nat)
    requires r.origin.Discovered? && r.origin.confidence <= MaxConfidence && m <= n
    ensures Rediscover(r, md, now, m).origin.confidence <= Rediscover(r, md, now, n).origin.confidence
  {
    RediscoverConfidence(r, md, now, m);
    RediscoverConfidence(r, md, now, n);
  }

  /** The purge rule of `cleanup`: low confidence and not seen since the cutoff. */
  predicate Purgeable(r: ServiceRecord, cutoff: int) {
    r.origin.Discovered? && r.origin.confidence < PurgeConfidence && r.origin.lastSeen < cutoff
  }

  // ---------------------------------------------------------------- other records

  /** One entry of the content cache (`cacheContent`). */
  datatype ContentEntry = ContentEntry(
    id: string,
    domain: string,
    title: string,
    url: string,
    duration: nat,
    currentTime: nat,
    kind: Option<string>,    // the item's `type`
    lastWatched: int,
    watchCount: nat)

  /** A row of `userPreferences`. */
  datatype Preference = Preference(key: string, value: Value, updatedAt: int)

  /** What `cacheContent` is given. */
  datatype WatchData = WatchData(
    serviceName: string, domain: string, title: string, url: string,
    duration: nat, currentTime: nat, kind: Option<string>)
}
