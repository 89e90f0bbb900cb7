/**
 * `StreamingServiceDetector`: resolves the page's domain against the
 * registry through a five-minute cache, scores how much a page looks like
 * a movie page of the resolved service, and derives URL patterns and DOM
 * queries when the user teaches it a new domain.
 */
module Detection {
  import opened Wrappers
  import opened Strings
  import opened JsValues
  import opened KeyOrder
  import opened Stores
  import opened Services
  import opened Catalog
  import opened Registry
  import opened Pages
  import opened Durations

  // ---------------------------------------------------------------- extractDomain

  /** `extractDomain`: the hostname without one leading `www.`, or "" when the URL does not parse. */
  function ExtractDomain(loc: Location): (r: string)
    ensures loc.parts.None? ==> r == ""
    ensures loc.parts.Some? ==> loc.parts.value.hostname == r || loc.parts.value.hostname == Www + r
    ensures loc.parts.Some? && !IsPrefix(Www, loc.parts.value.hostname) ==> r == loc.parts.value.hostname
  {
    match loc.parts
    case None => ""
    case Some(u) => StripWww(u.hostname)
  }

  // ---------------------------------------------------------------- the domain cache

  /** Five minutes, in milliseconds. */
  const CacheExpiry: int := 300_000

  datatype CacheEntry = CacheEntry(isStreaming: bool, timestamp: int)

  /** The lookup rule of `isStreamingSite`: an entry younger than the expiry is used as is. */
  predicate Fresh(cache: map<string, CacheEntry>, d: string, now: int) {
    d in cache && now - cache[d].timestamp < CacheExpiry
  }

  /** The eviction rule of `cleanup`: an entry strictly older than the expiry is dropped. */
  predicate Expired(e: CacheEntry, now: int) {
    now - e.timestamp > CacheExpiry
  }

  /** The cache after `cleanup`'s eviction loop. */
  function Evict(cache: map<string, CacheEntry>, now: int): (r: map<string, CacheEntry>)
    ensures r.Keys <= cache.Keys
  {
    map d | d in cache && !Expired(cache[d], now) :: cache[d]
  }

  /**
   * Eviction keeps every entry a lookup would still use and drops only
   * entries a lookup would refresh anyway; an entry exactly as old as the
   * expiry is kept, yet is stale for lookup.
   */
  lemma EvictionRespectsFreshness(cache: map<string, CacheEntry>, d: string, now: int)
    ensures Fresh(cache, d, now) ==> Fresh(Evict(cache, now), d, now) && Evict(cache, now)[d] == cache[d]
    ensures d in cache && d !in Evict(cache, now) ==> !Fresh(cache, d, now)
    ensures d in cache && now - cache[d].timestamp == CacheExpiry ==>
      d in Evict(cache, now) && !Fresh(Evict(cache, now), d, now)
  {
  }

  /** The cache after `preloadDomainCache`: every listed domain marked streaming at `now`. */
  function Preloaded(cache: map<string, CacheEntry>, domains: seq<string>, now: int): (r: map<string, CacheEntry>)
    ensures forall d :: d in r <==> d in cache || d in domains
  {
    cache + map d | d in domains :: CacheEntry(true, now)
  }

  lemma PreloadedSnoc(cache: map<string, CacheEntry>, domains: seq<string>, d: string, now: int)
    ensures Preloaded(cache, domains + [d], now) == Preloaded(cache, domains, now)[d := CacheEntry(true, now)]
  {
  }

  lemma PreloadedStep(cache: map<string, CacheEntry>, domains: seq<string>, i: nat, now: int)
    requires i < |domains|
    ensures Preloaded(cache, domains[..i + 1], now) == Preloaded(cache, domains[..i], now)[domains[i] := CacheEntry(true, now)]
  {
    assert domains[..i + 1] == domains[..i] + [domains[i]];
    PreloadedSnoc(cache, domains[..i], domains[i], now);
  }

  /** The loop of `cleanup` over the cache: every expired entry is deleted. */
  method EvictAll(start: map<string, CacheEntry>, now: int) returns (cache: map<string, CacheEntry>)
    ensures cache == Evict(start, now)
  {
    cache := start;
    var keys := cache.Keys;
    while keys != {}
      invariant keys <= start.Keys
      invariant cache == map d | d in start && (d in keys || !Expired(start[d], now)) :: start[d]
      decreases |keys|
    {
      var d :| d in keys;
      if now - cache[d].timestamp > CacheExpiry {
        cache := cache - {d};
      }
      keys := keys - {d};
    }
  }

  /** The loop of `preloadDomainCache`: each domain becomes a streaming entry stamped `now`. */
  method PreloadAll(cache0: map<string, CacheEntry>, domains: seq<string>, now: int) returns (cache: map<string, CacheEntry>)
    ensures cache == Preloaded(cache0, domains, now)
  {
    cache := cache0;
    assert Preloaded(cache0, domains[..0], now) == cache0;
    for i := 0 to |domains|
      invariant cache == Preloaded(cache0, domains[..i], now)
    {
      PreloadedStep(cache0, domains, i, now);
      cache := cache[domains[i] := CacheEntry(true, now)];
    }
    assert domains[..|domains|] == domains;
  }

  lemma PreloadedSameDomains(cache: map<string, CacheEntry>, a: seq<string>, b: seq<string>, now: int)
    requires forall d :: d in a <==> d in b
    ensures Preloaded(cache, a, now) == Preloaded(cache, b, now)
  {
  }

  /** Right after preloading, every listed domain is a fresh streaming entry. */
  lemma PreloadedFresh(cache: map<string, CacheEntry>, domains: seq<string>, now: int, d: string)
    requires d in domains
    ensures Fresh(Preloaded(cache, domains, now), d, now)
    ensures Preloaded(cache, domains, now)[d].isStreaming
  {
  }

  // ---------------------------------------------------------------- detectMovieContext

  /**
   * What `detectMovieContext` returns. `confidence` is in tenths; `timestamp`
   * is set only by `MovieDetector.updateProgress`.
   */
  datatype MovieContext = MovieContext(
    url: string, domain: string, serviceName: string, category: string,
    title: Option<string>, isMoviePage: bool, confidence: nat,
    currentTime: nat, duration: nat, timestamp: Option<int>)

  /** The generic title queries, tried in this order (also the title candidates of `analyzePageSelectors`). */
  const TitleSelectors: seq<string> :=
    ["h1", "[data-testid*=\"title\"]", ".title", ".video-title", ".movie-title", ".show-title"]

  /** The service's query for a role (`service.selectors && service.selectors[role]`): it must be a non-empty string. */
  function RoleSelector(s: ServiceRecord, role: string): (r: Option<string>)
    ensures r.Some? <==> role in s.selectors && s.selectors[role] != ""
    ensures r.Some? ==> r.value == s.selectors[role]
  {
    if role in s.selectors && s.selectors[role] != "" then Some(s.selectors[role]) else None
  }

  /** The trimmed text of the first match of `q`, when there is a match and its trimmed text is not empty. */
  function TextAt(page: Page, q: string): (r: Option<string>)
    ensures r.Some? ==> q in page.elements && r.value == Trim(page.elements[q]) && r.value != ""
    ensures r.None? ==> q !in page.elements || Trim(page.elements[q]) == ""
    ensures r.Some? ==> Trim(r.value) == r.value
  {
    if q in page.elements && Trim(page.elements[q]) != "" then
      TrimKeeps(Trim(page.elements[q]));
      Some(Trim(page.elements[q]))
    else None
  }

  /** The title read with the service's own title query. */
  function ServiceTitle(s: ServiceRecord, page: Page): Option<string> {
    match RoleSelector(s, "title")
    case None => None
    case Some(q) => TextAt(page, q)
  }

  /** The text of the first query in `qs` whose trimmed text is not blank. */
  function FirstText(page: Page, qs: seq<string>): (r: Option<string>)
    ensures r.None? <==> forall j :: 0 <= j < |qs| ==> TextAt(page, qs[j]).None?
    ensures r.Some? ==> exists j :: 0 <= j < |qs| && TextAt(page, qs[j]) == r
  {
    if qs == [] then None
    else if TextAt(page, qs[0]).Some? then TextAt(page, qs[0])
    else
      var r := FirstText(page, qs[1..]);
      assert r.Some? ==> exists j :: 0 <= j < |qs[1..]| && TextAt(page, qs[1..][j]) == r;
      r
  }

  /** The title read with the first generic query whose text is not blank. */
  function GenericTitle(page: Page): Option<string> {
    FirstText(page, TitleSelectors)
  }

  /** `duration && !isNaN(duration) && duration !== Infinity ? duration : 0`. */
  function VideoSeconds(t: MediaTime): nat {
    match t
    case Finite(n) => n
    case NaN => 0
    case Infinity => 0
  }

  function VideoDuration(page: Page): nat {
    if |page.videos| > 0 then VideoSeconds(page.videos[0].duration) else 0
  }

  function VideoCurrentTime(page: Page): nat {
    if |page.videos| > 0 then page.videos[0].currentTime else 0
  }

  /** The seconds the duration text of the element `q` gives; 0 without a match. */
  function DurationAt(page: Page, q: string): nat {
    if q in page.elements then DurationTextSeconds(Trim(page.elements[q])) else 0
  }

  /**
   * The duration read from the service's duration element, consulted only
   * when the first video gave none; a reading of 0 counts as none.
   */
  function ParsedDuration(s: ServiceRecord, page: Page): (r: Option<nat>)
    ensures r.Some? ==> r.value > 0 && VideoDuration(page) == 0
  {
    if VideoDuration(page) != 0 then None
    else match RoleSelector(s, "duration")
      case None => None
      case Some(q) => if DurationAt(page, q) > 0 then Some(DurationAt(page, q)) else None
  }

  datatype TitleSource = NoTitle | FromService | Generic

  /** Which of the four bonuses a page earns. */
  datatype Signals = Signals(pattern: bool, video: bool, title: TitleSource, durationBonus: bool)

  function TitleSourceOf(s: ServiceRecord, page: Page): TitleSource {
    if ServiceTitle(s, page).Some? then FromService
    else if GenericTitle(page).Some? then Generic
    else NoTitle
  }

  function SignalsOf(s: ServiceRecord, href: string, page: Page): Signals {
    Signals(
      |s.patterns| > 0 && ContainsAny(href, s.patterns),
      |page.videos| > 0,
      TitleSourceOf(s, page),
      ParsedDuration(s, page).Some?)
  }

  /** 0.2 for the service's own title query, 0.1 for a generic one. */
  function TitleBonus(t: TitleSource): nat {
    match t
    case NoTitle => 0
    case FromService => 2
    case Generic => 1
  }

  /** The confidence in tenths: 0.4 for a URL pattern, 0.3 for a video, 0.2 or 0.1 for a title, 0.1 for a duration. */
  function Points(g: Signals): nat {
    (if g.pattern then 4 else 0) + (if g.video then 3 else 0)
    + TitleBonus(g.title)
    + (if g.durationBonus then 1 else 0)
  }

  predicate AnySignal(g: Signals) {
    g.pattern || g.video || g.title != NoTitle || g.durationBonus
  }

  /**
   * `confidence > 0.3` on the binary floating-point sum. Every sum of at
   * least four tenths passes and every smaller one fails, except 0.2 + 0.1,
   * which is 0.30000000000000004 and passes.
   */
  predicate ExceedsThreshold(g: Signals) {
    Points(g) > 3 || g == Signals(false, false, FromService, true)
  }

  function Title(s: ServiceRecord, page: Page): Option<string> {
    if ServiceTitle(s, page).Some? then ServiceTitle(s, page) else GenericTitle(page)
  }

  function DetectedDuration(s: ServiceRecord, page: Page): nat {
    match ParsedDuration(s, page)
    case Some(n) => n
    case None => VideoDuration(page)
  }

  /** The verdict of `detectMovieContext` on a page of a resolved service. */
  function Classify(s: ServiceRecord, href: string, page: Page): Option<MovieContext> {
    Verdict(s, href, SignalsOf(s, href, page), Title(s, page), VideoCurrentTime(page), DetectedDuration(s, page))
  }

  /** The verdict once the signals and the readings are known. */
  function Verdict(s: ServiceRecord, href: string, g: Signals, title: Option<string>, currentTime: nat, duration: nat)
    : Option<MovieContext>
  {
    if ExceedsThreshold(g) && AnySignal(g) then
      Some(MovieContext(href, s.domain, s.name, s.category, title, true, Points(g), currentTime, duration, None))
    else None
  }

  /**
   * A page is reported exactly when its confidence exceeds 0.3: every
   * bonus also marks it a movie page, so that second test never decides.
   */
  lemma ReportedIffAboveThreshold(s: ServiceRecord, href: string, page: Page)
    ensures Classify(s, href, page).Some? <==>
      Points(SignalsOf(s, href, page)) > 3 || SignalsOf(s, href, page) == Signals(false, false, FromService, true)
  {
  }

  /** A reported context describes the service, is a movie page and has a confidence between 0.3 and 1.0. */
  lemma ReportedContext(s: ServiceRecord, href: string, page: Page)
    requires Classify(s, href, page).Some?
    ensures var c := Classify(s, href, page).value;
      && c.url == href && c.domain == s.domain && c.serviceName == s.name && c.category == s.category
      && c.isMoviePage && 3 <= c.confidence <= MaxConfidence
  {
  }

  /**
   * The service's title query wins; the generic queries are tried only
   * without it, and the title, when there is one, is non-blank trimmed text.
   */
  lemma TitlePrecedence(s: ServiceRecord, href: string, page: Page)
    requires Classify(s, href, page).Some?
    ensures var c := Classify(s, href, page).value;
      && (ServiceTitle(s, page).Some? ==> c.title == ServiceTitle(s, page))
      && (ServiceTitle(s, page).None? ==> c.title == GenericTitle(page))
      && (c.title.Some? ==> c.title.value != "" && Trim(c.title.value) == c.title.value)
  {
    assert Classify(s, href, page).value.title == Title(s, page);
    FirstTextTrimmed(page, TitleSelectors);
  }

  /** The text `FirstText` picks is not blank and is its own trim. */
  lemma FirstTextTrimmed(page: Page, qs: seq<string>)
    ensures FirstText(page, qs).Some? ==> FirstText(page, qs).value != "" && Trim(FirstText(page, qs).value) == FirstText(page, qs).value
  {
    if FirstText(page, qs).Some? {
      var j :| 0 <= j < |qs| && TextAt(page, qs[j]) == FirstText(page, qs);
    }
  }

  /** A video with a positive finite length fixes the duration; the text is then not read. */
  lemma VideoDurationWins(s: ServiceRecord, href: string, page: Page)
    requires |page.videos| > 0 && page.videos[0].duration.Finite? && page.videos[0].duration.seconds > 0
    ensures !SignalsOf(s, href, page).durationBonus
    ensures Classify(s, href, page).Some? ==>
      Classify(s, href, page).value.duration == page.videos[0].duration.seconds
  {
  }

  /** A page whose only sign is a video element stays at 0.3 and is not reported. */
  lemma VideoAloneIsNotEnough(s: ServiceRecord, href: string, page: Page)
    requires SignalsOf(s, href, page) == Signals(false, true, NoTitle, false)
    ensures Classify(s, href, page).None?
  {
  }

  /** `service.patterns.some(pattern => url.includes(pattern))`. */
  method MatchesAnyPattern(href: string, patterns: seq<string>) returns (matching: bool)
    ensures matching <==> ContainsAny(href, patterns)
  {
    matching := false;
    var i := 0;
    while i < |patterns| && !matching
      invariant 0 <= i <= |patterns|
      invariant matching <==> exists j :: 0 <= j < i && Contains(href, patterns[j])
    {
      matching := Contains(href, patterns[i]);
      i := i + 1;
    }
  }

  /** A title loop: the first query whose trimmed text is not blank wins. */
  method FindFirstText(page: Page, qs: seq<string>) returns (title: Option<string>)
    ensures title == FirstText(page, qs)
  {
    title := None;
    for i := 0 to |qs|
      invariant title.None? ==> FirstText(page, qs) == FirstText(page, qs[i..])
      invariant title.Some? ==> title == FirstText(page, qs)
    {
      var q := qs[i];
      if q in page.elements && Trim(page.elements[q]) != "" {
        title := Some(Trim(page.elements[q]));
        break;
      }
      assert qs[i..][1..] == qs[i + 1..];
    }
  }

  /** The title step of `detectMovieContext`: the service's query first, then the generic ones. */
  method ReadTitle(s: ServiceRecord, page: Page) returns (title: Option<string>, source: TitleSource)
    ensures title == Title(s, page)
    ensures source == TitleSourceOf(s, page)
  {
    title := None;
    source := NoTitle;
    var titleQuery := RoleSelector(s, "title");
    if titleQuery.Some? {
      var q := titleQuery.value;
      if q in page.elements && Trim(page.elements[q]) != "" {
        title := Some(Trim(page.elements[q]));
        source := FromService;
      }
    }
    assert title == ServiceTitle(s, page);
    if title.None? {
      title := FindFirstText(page, TitleSelectors);
      if title.Some? {
        source := Generic;
      }
    }
  }

  /** The duration step of `detectMovieContext`: the text is read only when the video gave no duration. */
  method ReadDuration(s: ServiceRecord, page: Page, videoDuration: nat) returns (duration: nat, bonus: bool)
    requires videoDuration == VideoDuration(page)
    ensures duration == DetectedDuration(s, page)
    ensures bonus == ParsedDuration(s, page).Some?
  {
    duration := videoDuration;
    bonus := false;
    var durationQuery := RoleSelector(s, "duration");
    if duration == 0 && durationQuery.Some? {
      var q := durationQuery.value;
      if q in page.elements {
        var seconds := DurationAt(page, q);
        if seconds > 0 {
          duration := seconds;
          bonus := true;
        }
      }
    }
  }

  /** `detectMovieContext`'s accumulation, bonus by bonus. */
  method Score(s: ServiceRecord, href: string, page: Page) returns (r: Option<MovieContext>)
    ensures r == Classify(s, href, page)
  {
    var confidence: nat := 0;
    var isMoviePage := false;
    var currentTime: nat := 0;
    var duration: nat := 0;

    var matching := false;
    if |s.patterns| > 0 {
      matching := MatchesAnyPattern(href, s.patterns);
      if matching {
        isMoviePage := true;
        confidence := confidence + 4;
      }
    }

    if |page.videos| > 0 {
      var mainVideo := page.videos[0];
      confidence := confidence + 3;
      isMoviePage := true;
      currentTime := mainVideo.currentTime;
      duration := VideoSeconds(mainVideo.duration);
    }

    var title, source := ReadTitle(s, page);
    var titleBonus := TitleBonus(source);
    if titleBonus > 0 {
      confidence := confidence + titleBonus;
      isMoviePage := true;
    }

    var durationBonus;
    duration, durationBonus := ReadDuration(s, page, duration);
    if durationBonus {
      confidence := confidence + 1;
      isMoviePage := true;
    }

    ghost var g := Signals(matching, |page.videos| > 0, source, durationBonus);
    assert g == SignalsOf(s, href, page);
    assert currentTime == VideoCurrentTime(page);
    assert confidence == Points(g);
    assert isMoviePage == AnySignal(g);

    // 0.2 + 0.1 is the one three-tenths sum that floating point puts above 0.3
    var exceeds := confidence > 3 || (confidence == 3 && titleBonus == 2);
    if exceeds && isMoviePage {
      r := Some(MovieContext(href, s.domain, s.name, s.category, title, true, confidence, currentTime, duration, None));
    } else {
      r := None;
    }
    assert exceeds == ExceedsThreshold(g);
    assert r == Verdict(s, href, g, title, currentTime, duration);
  }

  // ---------------------------------------------------------------- analyzeUrlPatterns

  const CommonPatterns: seq<string> :=
    ["/watch/", "/video/", "/movie/", "/series/", "/show/", "/episode/", "/stream/", "/play/"]

  const ShortPattern: string := "/v/"
  const QueryPattern: string := "/watch?v="

  /** Every pattern `analyzeUrlPatterns` can report, in the order it reports them. */
  const UrlCandidates: seq<string> := CommonPatterns + [ShortPattern, QueryPattern]

  /** `pathname.match(/\/v\/\w+/)`. */
  predicate ShortToken(path: string) {
    exists i: nat :: OccursAt(path, ShortPattern, i) && i + 3 < |path| && IsWordChar(path[i + 3])
  }

  /** Whether a URL shows a candidate pattern. */
  predicate Applies(u: UrlParts, p: string) {
    if p == ShortPattern then ShortToken(u.pathname)
    else if p == QueryPattern then Contains(u.search, "v=")
    else Contains(u.pathname, p)
  }

  /** A common pattern is a plain substring test on the path. */
  lemma CommonPatternPlain(u: UrlParts, p: string)
    requires p in CommonPatterns
    ensures Applies(u, p) == Contains(u.pathname, p)
  {
    assert |p| > |ShortPattern| && p[|p| - 1] == '/' && QueryPattern[|QueryPattern| - 1] == '=';
  }

  /** The patterns of `ps` that occur in `path`, in order. */
  function PathPatterns(path: string, ps: seq<string>): (r: seq<string>)
    ensures |r| <= |ps|
  {
    if ps == [] then [] else (if Contains(path, ps[0]) then [ps[0]] else []) + PathPatterns(path, ps[1..])
  }

  /** The patterns kept are exactly those of `ps` the path contains. */
  lemma {:induction false} PathPatternsMembers(path: string, ps: seq<string>)
    ensures forall p :: p in PathPatterns(path, ps) <==> p in ps && Contains(path, p)
  {
    if ps != [] {
      PathPatternsMembers(path, ps[1..]);
      assert forall p :: p in ps <==> p == ps[0] || p in ps[1..];
    }
  }

  lemma PathPatternsStep(path: string, ps: seq<string>, i: nat)
    requires i < |ps|
    ensures PathPatterns(path, ps[i..]) == (if Contains(path, ps[i]) then [ps[i]] else []) + PathPatterns(path, ps[i + 1..])
  {
    assert ps[i..][1..] == ps[i + 1..];
  }

  lemma {:induction false} PathPatternsNoDup(path: string, ps: seq<string>)
    requires NoDup(ps)
    ensures NoDup(PathPatterns(path, ps))
  {
    if ps != [] {
      assert NoDup(ps[1..]) by {
        forall i, j | 0 <= i < j < |ps[1..]| ensures ps[1..][i] != ps[1..][j] {
          assert ps[1..][i] == ps[i + 1] && ps[1..][j] == ps[j + 1];
        }
      }
      PathPatternsNoDup(path, ps[1..]);
      var rest := PathPatterns(path, ps[1..]);
      PathPatternsMembers(path, ps[1..]);
      var head: seq<string> := if Contains(path, ps[0]) then [ps[0]] else [];
      assert ps[0] !in rest by {
        forall k | 0 <= k < |ps[1..]| ensures ps[1..][k] != ps[0] {
          assert ps[1..][k] == ps[k + 1];
        }
      }
      forall i, j | 0 <= i < j < |head + rest| ensures (head + rest)[i] != (head + rest)[j] {
        if i < |head| {
          assert (head + rest)[i] == ps[0] && (head + rest)[j] == rest[j - |head|];
        } else {
          assert (head + rest)[i] == rest[i - |head|] && (head + rest)[j] == rest[j - |head|];
        }
      }
    }
  }

  /** The patterns a URL shows: the common ones of the path, then `/v/`, then `/watch?v=`; none for a URL that does not parse. */
  function UrlPatterns(loc: Location): seq<string> {
    match loc.parts
    case None => []
    case Some(u) =>
      PathPatterns(u.pathname, CommonPatterns)
      + (if ShortToken(u.pathname) then [ShortPattern] else [])
      + (if Contains(u.search, "v=") then [QueryPattern] else [])
  }

  /** The loop over the common patterns in `analyzeUrlPatterns`. */
  method FindPathPatterns(path: string, ps: seq<string>) returns (patterns: seq<string>)
    ensures patterns == PathPatterns(path, ps)
  {
    patterns := [];
    for i := 0 to |ps|
      invariant patterns + PathPatterns(path, ps[i..]) == PathPatterns(path, ps)
    {
      var p := ps[i];
      PathPatternsStep(path, ps, i);
      if Contains(path, p) {
        assert patterns + ([p] + PathPatterns(path, ps[i + 1..])) == (patterns + [p]) + PathPatterns(path, ps[i + 1..]);
        patterns := patterns + [p];
      }
    }
  }

  /** The derived patterns are distinct, at most ten, and exactly the candidates the URL shows. */
  lemma UrlPatternsShape(loc: Location)
    ensures NoDup(UrlPatterns(loc)) && |UrlPatterns(loc)| <= 10
    ensures loc.parts.None? ==> UrlPatterns(loc) == []
    ensures loc.parts.Some? ==>
      forall p :: p in UrlPatterns(loc) <==> p in UrlCandidates && Applies(loc.parts.value, p)
  {
    if loc.parts.Some? {
      var u := loc.parts.value;
      var common := PathPatterns(u.pathname, CommonPatterns);
      PathPatternsNoDup(u.pathname, CommonPatterns);
      PathPatternsMembers(u.pathname, CommonPatterns);
      var short: seq<string> := if ShortToken(u.pathname) then [ShortPattern] else [];
      var query: seq<string> := if Contains(u.search, "v=") then [QueryPattern] else [];
      assert ShortPattern !in CommonPatterns && QueryPattern !in CommonPatterns;
      var r := common + short + query;
      forall i, j | 0 <= i < j < |r| ensures r[i] != r[j] {
        if j < |common| {
          assert r[i] == common[i] && r[j] == common[j];
        } else if i < |common| {
          assert r[i] in common;
        }
      }
      forall p ensures p in r <==> p in UrlCandidates && Applies(u, p) {
        if p in CommonPatterns {
          CommonPatternPlain(u, p);
        }
      }
    }
  }

  // ---------------------------------------------------------------- analyzePageSelectors

  const DurationCandidates: seq<string> :=
    [".duration", ".time-total", ".video-duration", "[data-testid*=\"duration\"]",
     ".current-time + .separator + .total-time"]

  /** A title element is kept when its trimmed text is longer than three characters. */
  predicate MeaningfulTitle(page: Page, q: string) {
    q in page.elements && |Trim(page.elements[q])| > 3
  }

  /** A duration element is kept when its text contains `digits:digits`. */
  predicate ShowsTime(page: Page, q: string) {
    q in page.elements && HasTimeShape(page.elements[q])
  }

  /** The first title candidate with a meaningful text. */
  function FirstTitleQuery(page: Page, qs: seq<string>): (r: Option<string>)
    ensures r.None? <==> forall j :: 0 <= j < |qs| ==> !MeaningfulTitle(page, qs[j])
    ensures r.Some? ==> r.value in qs && MeaningfulTitle(page, r.value)
    ensures |qs| > 0 && MeaningfulTitle(page, qs[0]) ==> r == Some(qs[0])
  {
    if qs == [] then None
    else if MeaningfulTitle(page, qs[0]) then Some(qs[0])
    else FirstTitleQuery(page, qs[1..])
  }

  /** The first duration candidate whose text shows a time. */
  function FirstTimeQuery(page: Page, qs: seq<string>): (r: Option<string>)
    ensures r.None? <==> forall j :: 0 <= j < |qs| ==> !ShowsTime(page, qs[j])
    ensures r.Some? ==> r.value in qs && ShowsTime(page, r.value)
  {
    if qs == [] then None
    else if ShowsTime(page, qs[0]) then Some(qs[0])
    else FirstTimeQuery(page, qs[1..])
  }

  /** The title loop of `analyzePageSelectors`. */
  method FindTitleQuery(page: Page, qs: seq<string>) returns (title: Option<string>)
    ensures title == FirstTitleQuery(page, qs)
  {
    title := None;
    for i := 0 to |qs|
      invariant title.None? ==> FirstTitleQuery(page, qs) == FirstTitleQuery(page, qs[i..])
      invariant title.Some? ==> title == FirstTitleQuery(page, qs)
    {
      var q := qs[i];
      if q in page.elements && |Trim(page.elements[q])| > 3 {
        title := Some(q);
        break;
      }
      assert qs[i..][1..] == qs[i + 1..];
    }
  }

  /** The duration loop of `analyzePageSelectors`. */
  method FindTimeQuery(page: Page, qs: seq<string>) returns (duration: Option<string>)
    ensures duration == FirstTimeQuery(page, qs)
  {
    duration := None;
    for i := 0 to |qs|
      invariant duration.None? ==> FirstTimeQuery(page, qs) == FirstTimeQuery(page, qs[i..])
      invariant duration.Some? ==> duration == FirstTimeQuery(page, qs)
    {
      var q := qs[i];
      if q in page.elements && HasTimeShape(page.elements[q]) {
        duration := Some(q);
        break;
      }
      assert qs[i..][1..] == qs[i + 1..];
    }
  }

  /** What `analyzePageSelectors` finds, before it is written out as an object. */
  datatype SelectorHints = SelectorHints(title: Option<string>, video: bool, duration: Option<string>)

  function PageHints(page: Page): SelectorHints {
    SelectorHints(
      FirstTitleQuery(page, TitleSelectors),
      |page.videos| > 0,
      FirstTimeQuery(page, DurationCandidates))
  }

  function Role(role: string, q: Option<string>): map<string, string> {
    match q
    case None => map[]
    case Some(v) => map[role := v]
  }

  /** The object `{title?, video?, duration?}` of the hints. */
  function SelectorMap(h: SelectorHints): map<string, string> {
    Role("title", h.title) + (if h.video then map["video" := VideoSelector] else map[]) + Role("duration", h.duration)
  }

  /** The object has at most the three roles, and each role exactly when it was found. */
  lemma SelectorMapRoles(h: SelectorHints)
    ensures SelectorMap(h).Keys <= {"title", "video", "duration"}
    ensures "title" in SelectorMap(h) <==> h.title.Some?
    ensures h.title.Some? ==> SelectorMap(h)["title"] == h.title.value
    ensures "video" in SelectorMap(h) <==> h.video
    ensures h.video ==> SelectorMap(h)["video"] == VideoSelector
    ensures "duration" in SelectorMap(h) <==> h.duration.Some?
    ensures h.duration.Some? ==> SelectorMap(h)["duration"] == h.duration.value
  {
  }

  /**
   * A title query is found exactly when some candidate has a meaningful
   * text (`h1` first), and a duration query exactly when some candidate's
   * text shows a time.
   */
  lemma PageHintsFound(page: Page)
    ensures PageHints(page).title.Some? <==>
      exists j :: 0 <= j < |TitleSelectors| && MeaningfulTitle(page, TitleSelectors[j])
    ensures PageHints(page).title.Some? ==>
      PageHints(page).title.value in TitleSelectors && MeaningfulTitle(page, PageHints(page).title.value)
    ensures MeaningfulTitle(page, "h1") ==> PageHints(page).title == Some("h1")
    ensures PageHints(page).video <==> |page.videos| > 0
    ensures PageHints(page).duration.Some? <==>
      exists j :: 0 <= j < |DurationCandidates| && ShowsTime(page, DurationCandidates[j])
    ensures PageHints(page).duration.Some? ==>
      PageHints(page).duration.value in DurationCandidates && ShowsTime(page, PageHints(page).duration.value)
  {
  }

  // ---------------------------------------------------------------- addUserDiscoveredService

  /** The confidence a user-taught service starts with (0.7). */
  const TaughtConfidence: nat := 7

  /**
   * The metadata `addUserDiscoveredService` passes on: the caller's hint
   * with the derived patterns appended (not de-duplicated), the derived
   * selectors laid over the hinted ones, and the confidence forced to 0.7.
   */
  function TaughtMetadata(hint: Metadata, patterns: seq<string>, selectors: map<string, string>): (md: Metadata)
    ensures md.name == hint.name && md.category == hint.category
    ensures md.confidence == Some(TaughtConfidence)
    ensures md.patterns.Some? && |md.patterns.value| == |hint.patterns.GetOr([])| + |patterns|
    ensures md.patterns.value[..|hint.patterns.GetOr([])|] == hint.patterns.GetOr([])
    ensures md.patterns.value[|hint.patterns.GetOr([])|..] == patterns
    ensures md.selectors.Some?
    ensures forall role :: role in md.selectors.value <==> role in hint.selectors.GetOr(map[]) || role in selectors
    ensures forall role :: role in selectors ==> md.selectors.value[role] == selectors[role]
    ensures forall role :: role in hint.selectors.GetOr(map[]) && role !in selectors ==>
      md.selectors.value[role] == hint.selectors.GetOr(map[])[role]
  {
    var p := hint.patterns.GetOr([]) + patterns;
    assert p[|hint.patterns.GetOr([])|..] == patterns;
    hint.(patterns := Some(p), selectors := Some(hint.selectors.GetOr(map[]) + selectors),
          confidence := Some(TaughtConfidence))
  }

  /**
   * Teaching a domain the discovered store lacks creates a record at 0.7
   * that counts one movie; teaching it again counts two, raises the
   * confidence to 0.8 and merges the pattern lists without duplicates.
   */
  lemma TaughtTwice(s: seq<ServiceRecord>, domain: string, md1: Metadata, md2: Metadata, t1: int, t2: int)
    requires DiscoveredStore(s) && StripWww(domain) !in AsMap(DomainOf, s)
    requires md1.confidence == Some(TaughtConfidence) && md1.patterns.Some? && md2.patterns.Some?
    ensures DiscoveredStore(Put(DomainOf, s, Discover(s, domain, md1, t1)))
    ensures var r1 := Discover(s, domain, md1, t1);
      var r2 := Discover(Put(DomainOf, s, r1), domain, md2, t2);
      && r1.origin.movieCount == 1 && r1.origin.confidence == TaughtConfidence
      && r1.patterns == md1.patterns.value
      && r2.origin.movieCount == 2 && r2.origin.confidence == TaughtConfidence + 1
      && r2.patterns == MergePatterns(md1.patterns.value, md2.patterns.value)
      && r2.origin.firstDetected == t1 && r2.origin.lastSeen == t2
  {
    var r1 := Discover(s, domain, md1, t1);
    assert r1 == NewDiscovered(domain, md1, t1);
    PutDiscovered(s, r1);
    DiscoverUpdatesExisting(Put(DomainOf, s, r1), domain, md2, t2);
  }

  // ---------------------------------------------------------------- the detector

  /** The preference that records that the catalog was written. */
  const SeededFlag: string := "hasSeededServices"

  class StreamingServiceDetector {
    const db: StreamingServiceDB
    var domainCache: map<string, CacheEntry>
    var initialized: bool

    ghost predicate Valid()
      reads this, db
    {
      db.Valid()
    }

    /**
     * A detector with an empty cache over the reopened database, whose stores
     * hold what earlier sessions left; `init` is run separately.
     */
    constructor (known0: seq<ServiceRecord>, discovered0: seq<ServiceRecord>,
                 content0: seq<ContentEntry>, prefs0: seq<Preference>)
      requires KnownStore(known0) && DiscoveredStore(discovered0)
      requires AscendingBy(IdOf, content0) && AscendingBy(KeyOf, prefs0)
      ensures Valid() && fresh(db)
      ensures domainCache == map[] && !initialized
      ensures db.known == known0 && db.discovered == discovered0 && db.content == content0 && db.prefs == prefs0
    {
      db := new StreamingServiceDB(known0, discovered0, content0, prefs0);
      domainCache := map[];
      initialized := false;
    }

    /**
     * What a first `init` does to the known store and the preferences: the
     * catalog is written and the flag set, unless the flag was already truthy.
     */
    twostate predicate SeededOnce(now: int)
      reads db
    {
      var seeded := Truthy(old(db.GetUserPreference(SeededFlag, Bool(false))));
      && (seeded ==> db.known == old(db.known) && db.prefs == old(db.prefs))
      && (!seeded ==>
            && db.Known() == SeedStore(old(db.Known()), KnownServices, |KnownServices|, now)
            && db.Prefs() == old(db.Prefs())[SeededFlag := Preference(SeededFlag, Bool(true), now)])
    }

    /** `preloadDomainCache`: every domain of either store, marked streaming at `now`. */
    method PreloadDomainCache(now: int)
      requires Valid()
      modifies this
      ensures Valid() && initialized == old(initialized)
      ensures domainCache == Preloaded(old(domainCache), Domains(db.known + db.discovered), now)
    {
      var domains := db.GetAllDomains();
      var cache := PreloadAll(domainCache, domains, now);
      DedupMembers(Domains(db.known + db.discovered));
      domainCache := cache;
      PreloadedSameDomains(old(domainCache), domains, Domains(db.known + db.discovered), now);
    }

    /**
     * `init`: a no-op once initialized; otherwise seed the catalog on the
     * first run ever, then preload the cache.
     */
    method Init(now: int)
      requires Valid()
      modifies this, db
      ensures Valid() && initialized
      ensures old(initialized) ==> unchanged(this) && unchanged(db)
      ensures !old(initialized) ==> SeededOnce(now)
      ensures !old(initialized) ==> domainCache == Preloaded(old(domainCache), Domains(db.known + db.discovered), now)
      ensures db.discovered == old(db.discovered) && db.content == old(db.content)
      ensures Truthy(db.GetUserPreference(SeededFlag, Bool(false))) || old(initialized)
    {
      if initialized {
        return;
      }
      var hasSeeded := db.GetUserPreference(SeededFlag, Bool(false));
      if !Truthy(hasSeeded) {
        db.SeedKnownServices(now);
        db.SetUserPreference(SeededFlag, Bool(true), now);
      }
      PreloadDomainCache(now);
      initialized := true;
    }

    /** The cache a call looks at after its own `init` step. */
    ghost function CacheAfterInit(wasInitialized: bool, before: map<string, CacheEntry>, now: int): map<string, CacheEntry>
      reads db
    {
      if wasInitialized then before else Preloaded(before, Domains(db.known + db.discovered), now)
    }

    /**
     * `isStreamingSite`: a fresh cache entry answers and nothing changes;
     * otherwise the database answers and exactly that domain's entry is
     * rewritten with the answer and `now`.
     */
    method IsStreamingSite(loc: Location, now: int) returns (b: bool)
      requires Valid()
      modifies this, db
      ensures Valid() && initialized
      ensures old(initialized) ==> unchanged(db)
      ensures !old(initialized) ==> SeededOnce(now)
      ensures db.discovered == old(db.discovered) && db.content == old(db.content)
      ensures var d := ExtractDomain(loc);
        var c := CacheAfterInit(old(initialized), old(domainCache), now);
        if Fresh(c, d, now) then b == c[d].isStreaming && domainCache == c
        else b == db.IsKnownStreamingDomain(d) && domainCache == c[d := CacheEntry(b, now)]
    {
      if !initialized {
        Init(now);
      }
      var domain := ExtractDomain(loc);
      if domain in domainCache && now - domainCache[domain].timestamp < CacheExpiry {
        return domainCache[domain].isStreaming;
      }
      b := db.IsKnownStreamingDomain(domain);
      domainCache := domainCache[domain := CacheEntry(b, now)];
    }

    /** The cache preloading agrees with the database: every stored domain is a known streaming domain. */
    lemma StoredDomainsResolve(d: string)
      requires d in Domains(db.known + db.discovered)
      ensures db.IsKnownStreamingDomain(d)
    {
      var recs := db.known + db.discovered;
      var i :| 0 <= i < |recs| && recs[i].domain == d;
      ContainsStripped(d);
      var needle := StripWww(StripWww(d));
      assert Overlaps(needle, recs[i].domain);
      db.LookupNone(StripWww(d));
      assert recs[i] in db.known || recs[i] in db.discovered;
    }

    /** `getServiceInfo`: the database record for the page's domain. */
    method GetServiceInfo(loc: Location, now: int) returns (r: Option<ServiceRecord>)
      requires Valid()
      modifies this, db
      ensures Valid() && initialized
      ensures old(initialized) ==> unchanged(this) && unchanged(db)
      ensures !old(initialized) ==> SeededOnce(now)
      ensures db.discovered == old(db.discovered) && db.content == old(db.content)
      ensures domainCache == CacheAfterInit(old(initialized), old(domainCache), now)
      ensures r == db.GetServiceInfo(ExtractDomain(loc))
    {
      if !initialized {
        Init(now);
      }
      r := db.GetServiceInfo(ExtractDomain(loc));
    }

    /** `detectMovieContext`: no context when no service resolves, else the page's score. */
    method DetectMovieContext(loc: Location, page: Page, now: int) returns (r: Option<MovieContext>)
      requires Valid()
      modifies this, db
      ensures Valid() && initialized
      ensures old(initialized) ==> unchanged(this) && unchanged(db)
      ensures !old(initialized) ==> SeededOnce(now)
      ensures db.discovered == old(db.discovered) && db.content == old(db.content)
      ensures domainCache == CacheAfterInit(old(initialized), old(domainCache), now)
      ensures db.GetServiceInfo(ExtractDomain(loc)).None? ==> r.None?
      ensures db.GetServiceInfo(ExtractDomain(loc)).Some? ==>
        r == Classify(db.GetServiceInfo(ExtractDomain(loc)).value, loc.href, page)
    {
      if !initialized {
        Init(now);
      }
      var service := GetServiceInfo(loc, now);
      if service.None? {
        return None;
      }
      r := Score(service.value, loc.href, page);
    }

    /** `analyzeUrlPatterns`: the candidate patterns the URL shows, in order. */
    method AnalyzeUrlPatterns(loc: Location) returns (patterns: seq<string>)
      ensures patterns == UrlPatterns(loc)
    {
      patterns := [];
      if loc.parts.None? {
        return;
      }
      var u := loc.parts.value;
      patterns := FindPathPatterns(u.pathname, CommonPatterns);
      if ShortToken(u.pathname) {
        patterns := patterns + [ShortPattern];
      }
      if Contains(u.search, "v=") {
        patterns := patterns + [QueryPattern];
      }
    }

    /** `analyzePageSelectors`: the first good title query, `video`, and the first duration query that shows a time. */
    method AnalyzePageSelectors(page: Page) returns (selectors: map<string, string>)
      ensures selectors == SelectorMap(PageHints(page))
    {
      var title := FindTitleQuery(page, TitleSelectors);
      var duration := FindTimeQuery(page, DurationCandidates);
      selectors := SelectorMap(SelectorHints(title, |page.videos| > 0, duration));
    }

    /**
     * `addUserDiscoveredService`: teach the registry the page's domain with
     * the derived patterns and selectors at confidence 0.7, and mark the
     * domain streaming in the cache.
     */
    method AddUserDiscoveredService(loc: Location, hint: Metadata, page: Page, now: int) returns (r: ServiceRecord)
      requires Valid()
      modifies this, db
      ensures Valid() && initialized
      ensures !old(initialized) ==> SeededOnce(now)
      ensures old(initialized) ==> db.known == old(db.known) && db.prefs == old(db.prefs)
      ensures r == Discover(old(db.discovered), ExtractDomain(loc),
                            TaughtMetadata(hint, UrlPatterns(loc), SelectorMap(PageHints(page))), now)
      ensures db.Discovered() == old(db.Discovered())[r.domain := r] && db.content == old(db.content)
      ensures domainCache ==
        (if old(initialized) then old(domainCache)
         else Preloaded(old(domainCache), Domains(db.known + old(db.discovered)), now))[ExtractDomain(loc) := CacheEntry(true, now)]
    {
      if !initialized {
        Init(now);
      }
      var domain := ExtractDomain(loc);
      var patterns := AnalyzeUrlPatterns(loc);
      var selectors := AnalyzePageSelectors(page);
      var md := TaughtMetadata(hint, patterns, selectors);
      r := db.AddDiscoveredService(domain, md, now);
      domainCache := domainCache[domain := CacheEntry(true, now)];
    }

    /** `cleanup`: evict the expired cache entries, then purge the database with a 90-day window. */
    method Cleanup(now: int)
      requires Valid()
      modifies this, db
      ensures Valid() && initialized == old(initialized)
      ensures domainCache == Evict(old(domainCache), now)
      ensures db.Discovered() == PurgeStore(old(db.Discovered()), Cutoff(now, 90))
      ensures db.Content() == KeepRecent(old(db.Content()), Cutoff(now, 90))
      ensures db.known == old(db.known) && db.prefs == old(db.prefs)
    {
      var cache := EvictAll(domainCache, now);
      domainCache := cache;
      db.Cleanup(90, now);
    }
  }
}
