/**
 * `SmartMovieDetector`: a self-contained heuristic that decides whether any
 * page shows a movie, from a list of known streaming sites, keywords in the
 * URL and features of the document, and that extracts a title, a length
 * and a position from it.
 */
module SmartDetection {
  import opened Wrappers
  import opened Strings
  import opened Pages
  import opened Durations
  import opened Detection

  // ---------------------------------------------------------------- the indicator lists

  const VideoSelectors: seq<string> := [
    "video", "[class*=\"video\"]", "[class*=\"player\"]", "[id*=\"video\"]", "[id*=\"player\"]",
    "iframe[src*=\"player\"]", "iframe[src*=\"embed\"]"]

  const TitleIndicators: seq<string> :=
    ["title", "movie", "film", "episode", "series", "show", "watch", "stream", "video"]

  const ProgressSelectors: seq<string> := [
    "[class*=\"progress\"]", "[class*=\"time\"]", "[class*=\"duration\"]", "[class*=\"scrub\"]",
    "[class*=\"seek\"]", "[aria-label*=\"progress\"]", "[aria-label*=\"time\"]"]

  const ControlSelectors: seq<string> := [
    "[class*=\"play\"]", "[class*=\"pause\"]", "[class*=\"control\"]", "[aria-label*=\"play\"]",
    "[aria-label*=\"pause\"]", "button[title*=\"play\"]", "button[title*=\"pause\"]"]

  const KnownStreamingSites: seq<string> := [
    "netflix.com", "hulu.com", "amazon.com", "disneyplus.com", "hbo.com", "paramount.com",
    "peacocktv.com", "crunchyroll.com", "funimation.com", "tubi.tv", "pluto.tv", "vudu.com",
    "movies.com", "fandangonow.com", "crackle.com", "imdb.com", "plex.tv", "kanopy.com", "hoopla.com"]

  const UrlKeywords: seq<string> :=
    ["watch", "movie", "film", "video", "stream", "play", "episode", "series", "show"]

  /** `/\.(mp4|avi|mkv|mov|wmv|flv|webm|m4v)/`: a dot followed by one of the extensions. */
  const VideoExtensions: seq<string> := [".mp4", ".avi", ".mkv", ".mov", ".wmv", ".flv", ".webm", ".m4v"]

  /** `/\/watch\/|\/video\/|\/stream\/|\/play\//`. */
  const StreamingPaths: seq<string> := ["/watch/", "/video/", "/stream/", "/play/"]

  // ---------------------------------------------------------------- the known-site list

  /** `isKnownStreamingSite`: some listed site occurs in the hostname (never the other way round). */
  predicate IsKnownStreamingSite(hostname: string) {
    ContainsAny(hostname, KnownStreamingSites)
  }

  /** Only containment is checked: a look-alike host that embeds a listed name counts. */
  lemma LookalikeHostIsKnown()
    ensures IsKnownStreamingSite("netflix.com.example.org")
  {
    var h := "netflix.com.example.org";
    assert OccursAt(h, KnownStreamingSites[0], 0);
    ContainsIff(h, KnownStreamingSites[0]);
  }

  // ---------------------------------------------------------------- analyzeUrl

  /** How many of `keywords` occur in `url`. */
  function KeywordCount(url: string, keywords: seq<string>): (n: nat)
    ensures n <= |keywords|
    ensures n == 0 <==> forall i :: 0 <= i < |keywords| ==> !Contains(url, keywords[i])
    ensures n == |keywords| <==> forall i :: 0 <= i < |keywords| ==> Contains(url, keywords[i])
  {
    if keywords == [] then 0
    else
      var rest := KeywordCount(url, keywords[1..]);
      assert forall i :: 1 <= i < |keywords| ==> keywords[i] == keywords[1..][i - 1];
      (if Contains(url, keywords[0]) then 1 else 0) + rest
  }

  /** The score `analyzeUrl` gives. */
  function UrlScore(url: string, pathname: string): nat {
    KeywordCount(url, UrlKeywords)
    + (if ContainsAny(url, VideoExtensions) then 2 else 0)
    + (if ContainsAny(pathname, StreamingPaths) then 1 else 0)
  }

  /** One point per keyword, two for a video file, one for a streaming path: at most twelve. */
  lemma UrlScoreBounds(url: string, pathname: string)
    ensures UrlScore(url, pathname) <= 12
    ensures UrlScore(url, pathname) == 0 <==>
      && (forall i :: 0 <= i < |UrlKeywords| ==> !Contains(url, UrlKeywords[i]))
      && !ContainsAny(url, VideoExtensions) && !ContainsAny(pathname, StreamingPaths)
  {
  }

  /** The keyword loop of `analyzeUrl`. */
  method CountKeywords(url: string, keywords: seq<string>) returns (n: nat)
    ensures n == KeywordCount(url, keywords)
  {
    n := 0;
    for i := 0 to |keywords|
      invariant n + KeywordCount(url, keywords[i..]) == KeywordCount(url, keywords)
    {
      assert keywords[i..][1..] == keywords[i + 1..];
      if Contains(url, keywords[i]) {
        n := n + 1;
      }
    }
  }

  /** `analyzeUrl(url, pathname)`. */
  method AnalyzeUrl(url: string, pathname: string) returns (score: nat)
    ensures score == UrlScore(url, pathname)
  {
    score := CountKeywords(url, UrlKeywords);
    if ContainsAny(url, VideoExtensions) {
      score := score + 2;
    }
    if ContainsAny(pathname, StreamingPaths) {
      score := score + 1;
    }
  }

  // ---------------------------------------------------------------- analyzePageContent

  /** `selectors.some(s => document.querySelector(s) !== null)`. */
  predicate AnyPresent(page: Page, selectors: seq<string>) {
    exists i :: 0 <= i < |selectors| && Present(page, selectors[i])
  }

  predicate HasVideoElement(page: Page) {
    AnyPresent(page, VideoSelectors)
  }

  predicate HasVideoControls(page: Page) {
    AnyPresent(page, ControlSelectors)
  }

  predicate HasProgressBar(page: Page) {
    AnyPresent(page, ProgressSelectors)
  }

  /** `hasMovieTitle`: an indicator word in the lower-cased document title. */
  predicate HasMovieTitle(page: Page) {
    ContainsAny(ToLower(page.title), TitleIndicators)
  }

  /** `hasFullscreenCapability`: the first video offers a fullscreen request. */
  predicate HasFullscreenCapability(page: Page) {
    |page.videos| > 0 && page.videos[0].canFullscreen
  }

  function ContentScore(page: Page): nat {
    (if HasVideoElement(page) then 2 else 0)
    + (if HasVideoControls(page) then 1 else 0)
    + (if HasProgressBar(page) then 1 else 0)
    + (if HasMovieTitle(page) then 1 else 0)
    + (if HasFullscreenCapability(page) then 1 else 0)
  }

  /** Content scores lie in 0..6; a fullscreen-capable video always brings the video points too. */
  lemma ContentScoreBounds(page: Page)
    ensures ContentScore(page) <= 6
    ensures HasFullscreenCapability(page) ==> ContentScore(page) >= 3
  {
    if HasFullscreenCapability(page) {
      assert Present(page, VideoSelectors[0]);
    }
  }

  /** `analyzePageContent`. */
  method AnalyzePageContent(page: Page) returns (score: nat)
    ensures score == ContentScore(page)
  {
    score := 0;
    if HasVideoElement(page) {
      score := score + 2;
    }
    if HasVideoControls(page) {
      score := score + 1;
    }
    if HasProgressBar(page) {
      score := score + 1;
    }
    if HasMovieTitle(page) {
      score := score + 1;
    }
    if HasFullscreenCapability(page) {
      score := score + 1;
    }
  }

  // ---------------------------------------------------------------- detectMovieSite

  datatype SiteDetails =
    | Scores(urlScore: nat, contentScore: nat, totalScore: nat, hostname: string)
    | KnownSite(hasVideo: bool, hasControls: bool, hasProgress: bool)

  /** The verdict; `confidence` is in tenths. */
  datatype SiteReport = SiteReport(isMovieSite: bool, confidence: nat, details: SiteDetails)

  function Min(a: nat, b: nat): nat {
    if a <= b then a else b
  }

  /** `analyzeStreamingSite`: a known site is a movie site when it shows a player, controls or progress. */
  function AnalyzeStreamingSite(page: Page): (r: SiteReport)
    ensures r.confidence == 9 && r.details.KnownSite?
    ensures r.isMovieSite <==> HasVideoElement(page) || HasVideoControls(page) || HasProgressBar(page)
  {
    var hasVideo := HasVideoElement(page);
    var hasControls := HasVideoControls(page);
    var hasProgress := HasProgressBar(page);
    SiteReport(hasVideo || hasControls || hasProgress, 9, KnownSite(hasVideo, hasControls, hasProgress))
  }

  /** What `detectMovieSite` reports for the page at `where` (`href` is the full URL). */
  function MovieSite(where: UrlParts, href: string, page: Page): SiteReport {
    if IsKnownStreamingSite(where.hostname) then AnalyzeStreamingSite(page)
    else
      var u := UrlScore(ToLower(href), ToLower(where.pathname));
      var c := ContentScore(page);
      SiteReport(u + c >= 3, Min(2 * (u + c), 10), Scores(u, c, u + c, where.hostname))
  }

  /**
   * On an unknown site the page is a movie site exactly when the two
   * scores reach 3, with confidence total/5 capped at 1; a known site
   * always reports 0.9. Either way a reported movie site has at least 0.6.
   */
  lemma MovieSiteVerdict(where: UrlParts, href: string, page: Page)
    ensures MovieSite(where, href, page).confidence <= 10
    ensures !IsKnownStreamingSite(where.hostname) ==>
      var r := MovieSite(where, href, page);
      && r.details.Scores?
      && r.details.totalScore == r.details.urlScore + r.details.contentScore
      && (r.isMovieSite <==> r.details.totalScore >= 3)
      && r.confidence == Min(2 * r.details.totalScore, 10)
    ensures IsKnownStreamingSite(where.hostname) ==>
      MovieSite(where, href, page).confidence == 9 && MovieSite(where, href, page).details.KnownSite?
    ensures MovieSite(where, href, page).isMovieSite ==> MovieSite(where, href, page).confidence >= 6
  {
  }

  /** On a known site the URL does not count: without player, controls or progress it is no movie site. */
  lemma KnownSiteIgnoresUrl(where: UrlParts, href: string, page: Page)
    requires IsKnownStreamingSite(where.hostname)
    requires !AnyPresent(page, VideoSelectors) && !AnyPresent(page, ControlSelectors) && !AnyPresent(page, ProgressSelectors)
    ensures !MovieSite(where, href, page).isMovieSite
  {
  }

  /** `detectMovieSite`: the URL and the path are lower-cased before scoring. */
  method DetectMovieSite(where: UrlParts, href: string, page: Page) returns (r: SiteReport)
    ensures r == MovieSite(where, href, page)
  {
    if IsKnownStreamingSite(where.hostname) {
      return AnalyzeStreamingSite(page);
    }
    var urlScore := AnalyzeUrl(ToLower(href), ToLower(where.pathname));
    var contentScore := AnalyzePageContent(page);
    var totalScore := urlScore + contentScore;
    r := SiteReport(totalScore >= 3, Min(2 * totalScore, 10), Scores(urlScore, contentScore, totalScore, where.hostname));
  }

  // ---------------------------------------------------------------- cleanTitle

  /** The end of the whitespace run that starts at `i`. */
  function SpaceRunEnd(s: string, i: nat): (j: nat)
    requires i <= |s|
    ensures i <= j <= |s|
    ensures forall k :: i <= k < j ==> IsSpace(s[k])
    ensures j == |s| || !IsSpace(s[j])
    decreases |s| - i
  {
    if i < |s| && IsSpace(s[i]) then SpaceRunEnd(s, i + 1) else i
  }

  /** `.*$`: no line terminator from here to the end. */
  predicate NoLineBreak(t: string) {
    forall k :: 0 <= k < |t| ==> !IsLineTerminator(t[k])
  }

  /** `\s+.*$` at `i`: whitespace, then no line terminator after that run. */
  predicate SpacedToEnd(s: string, i: nat)
    requires i <= |s|
  {
    i < |s| && IsSpace(s[i]) && NoLineBreak(s[SpaceRunEnd(s, i)..])
  }

  /** The leading words `cleanTitle` drops, lower-cased. */
  const LeadWords: seq<string> := ["watch", "stream", "play"]

  /** The leading word of `/^(Watch\s+|Stream\s+|Play\s+)/i` that `s` starts with, if any. */
  function LeadWord(s: string): (w: Option<nat>)
    ensures w.Some? ==> w.value < |s| && ToLower(s[..w.value]) in LeadWords && IsSpace(s[w.value])
  {
    if 5 < |s| && ToLower(s[..5]) == "watch" && IsSpace(s[5]) then Some(5)
    else if 6 < |s| && ToLower(s[..6]) == "stream" && IsSpace(s[6]) then Some(6)
    else if 4 < |s| && ToLower(s[..4]) == "play" && IsSpace(s[4]) then Some(4)
    else None
  }

  /** Step one: the leading word and all the whitespace after it go. */
  function StripLead(s: string): (r: string)
    ensures |r| <= |s| && r == s[|s| - |r|..]
  {
    match LeadWord(s)
    case None => s
    case Some(n) => s[SpaceRunEnd(s, n)..]
  }

  /** The four tails `cleanTitle` cuts, in the order it cuts them. */
  datatype Tail =
    | Pipe     // `/\s+\|\s+.*$/`
    | Season   // `/\s+- Season \d+.*$/`
    | Year     // `/\s+\(\d{4}\)$/`
    | Episode  // `/\s+- Episode \d+.*$/`

  /** `- Season \d+.*$` or `- Episode \d+.*$` right at `j`. */
  predicate NumberedAt(s: string, j: nat, marker: string)
    requires j <= |s|
  {
    var p := j + |marker|;
    && IsPrefix(marker, s[j..]) && p < |s| && IsDigit(s[p]) && NoLineBreak(s[p + 1..])
  }

  /** The tail proper right after the whitespace run, at `j`, up to the end. */
  predicate TailAt(s: string, j: nat, t: Tail)
    requires j <= |s|
  {
    match t
    case Pipe => j < |s| && s[j] == '|' && SpacedToEnd(s, j + 1)
    case Season => NumberedAt(s, j, "- Season ")
    case Year =>
      && j + 6 == |s| && s[j] == '(' && s[j + 5] == ')'
      && IsDigit(s[j + 1]) && IsDigit(s[j + 2]) && IsDigit(s[j + 3]) && IsDigit(s[j + 4])
    case Episode => NumberedAt(s, j, "- Episode ")
  }

  /** The tail's expression matches from position `i`: a whitespace run, then the tail proper. */
  predicate CutAt(s: string, i: nat, t: Tail)
    requires i <= |s|
  {
    i < |s| && IsSpace(s[i]) && TailAt(s, SpaceRunEnd(s, i), t)
  }

  /** The leftmost position at or after `i` where the tail's expression matches. */
  function FirstCut(s: string, t: Tail, i: nat): (r: Option<nat>)
    requires i <= |s|
    ensures r.Some? ==> i <= r.value < |s| && CutAt(s, r.value, t)
    ensures r.Some? ==> forall k :: i <= k < r.value ==> !CutAt(s, k, t)
    ensures r.None? ==> forall k :: i <= k < |s| ==> !CutAt(s, k, t)
    decreases |s| - i
  {
    if i == |s| then None
    else if CutAt(s, i, t) then Some(i)
    else FirstCut(s, t, i + 1)
  }

  /** `.replace(tail, '')`: everything from the leftmost match on goes. */
  function CutTail(s: string, t: Tail): (r: string)
    ensures |r| <= |s| && r == s[..|r|]
  {
    match FirstCut(s, t, 0)
    case None => s
    case Some(k) => s[..k]
  }

  /** The order of the four `.replace` calls after the first. */
  const TailOrder: seq<Tail> := [Pipe, Season, Year, Episode]

  /** `.replace` with each tail of `tails` in turn. */
  function CutTails(s: string, tails: seq<Tail>): (r: string)
    ensures |r| <= |s| && r == s[..|r|]
  {
    if tails == [] then s
    else
      var c := CutTail(s, tails[0]);
      var r := CutTails(c, tails[1..]);
      assert r == c[..|r|] && c == s[..|c|];
      r
  }

  lemma ComposeSlices(t: string, a: string, b: string, r: string, i: nat, j: nat)
    requires |a| <= |t| && a == t[|t| - |a|..]
    requires |b| <= |a| && b == a[..|b|]
    requires i <= j <= |b| && r == b[i..j]
    ensures r == t[|t| - |a| + i..|t| - |a| + j]
  {
    assert forall k :: 0 <= k < j - i ==> r[k] == t[|t| - |a| + i + k];
  }

  /** `cleanTitle`: strip the leading word, cut the four tails, trim. */
  function CleanTitle(title: string): (r: string)
    ensures exists i, j :: 0 <= i <= j <= |title| && r == title[i..j]
    ensures r == [] || (!IsSpace(r[0]) && !IsSpace(r[|r| - 1]))
  {
    var a := StripLead(title);
    var b := CutTails(a, TailOrder);
    var e := TrimEnd(b);
    var t := TrimStart(e);
    SuffixOfPrefix(b, e, t);
    ComposeSlices(title, a, b, t, |e| - |t|, |e|);
    assert t == Trim(b);
    t
  }

  /** A tail whose expression matches nowhere cuts nothing. */
  lemma NoCut(s: string, t: Tail)
    requires forall k :: 0 <= k < |s| ==> !CutAt(s, k, t)
    ensures CutTail(s, t) == s
  {
  }

  /** A tail whose leftmost match is at `k` cuts `s` down to `s[..k]`. */
  lemma CutFrom(s: string, t: Tail, k: nat)
    requires k < |s| && CutAt(s, k, t)
    requires forall i :: 0 <= i < k ==> !CutAt(s, i, t)
    ensures CutTail(s, t) == s[..k]
  {
  }

  /** "Movie (2020)" starts with no leading word. */
  lemma YearTitleHasNoLead(s: string)
    requires s == "Movie (2020)"
    ensures StripLead(s) == s
  {
    assert ToLower(s[..5])[0] == 'm';
    assert ToLower(s[..6])[0] == 'm';
    assert ToLower(s[..4])[0] == 'm';
  }

  /** "Movie (2020)" has one space, at 5, and only the year's expression matches there. */
  lemma YearTitleMatches(s: string)
    requires s == "Movie (2020)"
    ensures forall k :: 0 <= k < |s| && k != 5 ==> !IsSpace(s[k])
    ensures !CutAt(s, 5, Pipe) && !CutAt(s, 5, Season) && CutAt(s, 5, Year)
  {
    assert SpaceRunEnd(s, 5) == 6;
  }

  /** Of the first three tails, only the year cuts "Movie (2020)", down to "Movie". */
  lemma YearTitleTails(s: string)
    requires s == "Movie (2020)"
    ensures CutTail(s, Pipe) == s && CutTail(s, Season) == s && CutTail(s, Year) == "Movie"
  {
    YearTitleMatches(s);
    NoCut(s, Pipe);
    NoCut(s, Season);
    CutFrom(s, Year, 5);
  }

  /** "Movie" holds no whitespace, so no tail matches it and trimming keeps it. */
  lemma PlainWordKept(m: string)
    requires m == "Movie"
    ensures CutTail(m, Episode) == m && Trim(m) == m
  {
    forall k | 0 <= k < |m| ensures !IsSpace(m[k]) {
    }
    NoCut(m, Episode);
    TrimNoSpace(m);
  }

  /** `cleanTitle` step by step: strip the lead, cut the four tails in order, trim. */
  lemma CleanTitleSteps(title: string)
    ensures CleanTitle(title) ==
      Trim(CutTail(CutTail(CutTail(CutTail(StripLead(title), Pipe), Season), Year), Episode))
  {
    var a := StripLead(title);
    var c1 := CutTail(a, Pipe);
    var c2 := CutTail(c1, Season);
    var c3 := CutTail(c2, Year);
    assert TailOrder[1..] == [Season, Year, Episode];
    assert [Season, Year, Episode][1..] == [Year, Episode];
    assert [Year, Episode][1..] == [Episode];
    assert [Episode][1..] == [];
    assert CutTails(c3, [Episode]) == CutTail(c3, Episode);
    assert CutTails(c2, [Year, Episode]) == CutTails(c3, [Episode]);
    assert CutTails(c1, [Season, Year, Episode]) == CutTails(c2, [Year, Episode]);
    assert CutTails(a, TailOrder) == CutTails(c1, [Season, Year, Episode]);
  }

  /** A year in brackets goes: "Movie (2020)" is cleaned to "Movie". */
  lemma CleanTitleCutsYear(title: string)
    requires title == "Movie (2020)"
    ensures CleanTitle(title) == "Movie"
  {
    CleanTitleSteps(title);
    YearTitleHasNoLead(title);
    YearTitleTails(title);
    PlainWordKept(CutTail(title, Year));
  }

  /** A leading "Watch ", "Stream " or "Play ", in any letter case, is dropped with the space after it. */
  lemma CleanTitleDropsLeadWord(w: string, rest: string)
    requires ToLower(w) in LeadWords
    requires rest == [] || !IsSpace(rest[0])
    ensures StripLead(w + " " + rest) == rest
  {
    var s := w + " " + rest;
    assert s[..|w|] == w;
    assert IsSpace(s[|w|]);
    assert SpaceRunEnd(s, |w| + 1) == |w| + 1;
    assert s[|w| + 1..] == rest;
    if ToLower(w) == "watch" {
      assert LeadWord(s) == Some(5);
    } else if ToLower(w) == "stream" {
      assert ToLower(s[..5])[0] == ToLower(w)[0];
      assert LeadWord(s) == Some(6);
    } else {
      assert ToLower(s[..5])[0] == ToLower(w)[0];
      assert 6 < |s| ==> ToLower(s[..6])[0] == ToLower(w)[0];
      assert LeadWord(s) == Some(4);
    }
  }

  // ---------------------------------------------------------------- extractTitle

  const SmartTitleSelectors: seq<string> :=
    ["h1", "[class*=\"title\"]", "[id*=\"title\"]", ".video-title", ".movie-title", ".episode-title", "title"]

  /** The title `extractTitle` returns: the cleaned text of the first non-blank candidate, else the cleaned document title. */
  function ExtractedTitle(page: Page): (r: string)
    ensures FirstText(page, SmartTitleSelectors).None? ==> |r| <= |page.title|
    ensures FirstText(page, SmartTitleSelectors).Some? ==> |r| <= |FirstText(page, SmartTitleSelectors).value|
  {
    match FirstText(page, SmartTitleSelectors)
    case Some(t) => CleanTitle(t)
    case None => CleanTitle(page.title)
  }

  method ExtractTitle(page: Page) returns (title: string)
    ensures title == ExtractedTitle(page)
  {
    var text := FindFirstText(page, SmartTitleSelectors);
    if text.Some? {
      return CleanTitle(text.value);
    }
    title := CleanTitle(page.title);
  }

  // ---------------------------------------------------------------- findVideoElement

  const PlayerSelectors: seq<string> := ["video", "iframe[src*=\"player\"]", "[class*=\"video-player\"]"]

  /** `findVideoElement`: the element of the first of the three queries that matches, named by its query. */
  function FindVideoElement(page: Page): (r: Option<string>)
    ensures r.Some? ==> r.value in PlayerSelectors && Present(page, r.value)
    ensures r.None? <==> forall i :: 0 <= i < |PlayerSelectors| ==> !Present(page, PlayerSelectors[i])
    ensures Present(page, VideoSelector) ==> r == Some(VideoSelector)
  {
    if Present(page, PlayerSelectors[0]) then Some(PlayerSelectors[0])
    else if Present(page, PlayerSelectors[1]) then Some(PlayerSelectors[1])
    else if Present(page, PlayerSelectors[2]) then Some(PlayerSelectors[2])
    else None
  }

  // ---------------------------------------------------------------- extractDuration, extractCurrentTime

  const DurationTextSelector: string := "[class*=\"duration\"], [class*=\"time-total\"]"
  const CurrentTimeTextSelector: string := "[class*=\"current-time\"], [class*=\"time-current\"]"

  /** Whether a text holds an `a:b`. */
  predicate HasTime(t: string) {
    FirstTimeMatch(t, 0).Some?
  }

  /** The first text with an `a:b`, read as `a * 60 + b`: the reading of the first text `HasTime` picks. */
  function TextReading(texts: seq<string>): (r: Option<nat>)
    ensures r.None? <==> FirstWhere(texts, HasTime).None?
    ensures r.Some? ==> var k := FirstWhere(texts, HasTime).value;
      r.value == FirstTimeMatch(texts[k], 0).value.0 * 60 + FirstTimeMatch(texts[k], 0).value.1
  {
    if texts == [] then None
    else match FirstTimeMatch(texts[0], 0)
      case Some(m) => Some(m.0 * 60 + m.1)
      case None => TextReading(texts[1..])
  }

  /** Only the first `a:b` of a text counts, as minutes and seconds. */
  lemma ReadingIgnoresHours()
    ensures TextReading(["1:02:03"]) == Some(62)
  {
    FirstMatchIgnoresHours();
  }

  /** The text loop of `extractDuration` and `extractCurrentTime`. */
  method FirstReading(texts: seq<string>) returns (r: Option<nat>)
    ensures r == TextReading(texts)
  {
    for i := 0 to |texts|
      invariant TextReading(texts) == TextReading(texts[i..])
    {
      var m := FirstTimeMatch(texts[i], 0);
      if m.Some? {
        return Some(m.value.0 * 60 + m.value.1);
      }
      assert texts[i..][1..] == texts[i + 1..];
    }
    return None;
  }

  /** `extractDuration`: a truthy duration of the first video, else the text reading, else null. */
  function ExtractedDuration(page: Page): (r: Option<MediaTime>)
    ensures r.Some? && r.value.NaN? ==> false
    ensures |page.videos| > 0 && MediaTruthy(page.videos[0].duration) ==> r == Some(page.videos[0].duration)
    ensures !(|page.videos| > 0 && MediaTruthy(page.videos[0].duration)) ==>
      (r.None? <==> forall i :: 0 <= i < |QueryAll(page, DurationTextSelector)| ==> !HasTime(QueryAll(page, DurationTextSelector)[i]))
  {
    if |page.videos| > 0 && MediaTruthy(page.videos[0].duration) then Some(page.videos[0].duration)
    else match TextReading(QueryAll(page, DurationTextSelector))
      case Some(n) => Some(Finite(n))
      case None => None
  }

  method ExtractDuration(page: Page) returns (r: Option<MediaTime>)
    ensures r == ExtractedDuration(page)
  {
    if |page.videos| > 0 && MediaTruthy(page.videos[0].duration) {
      return Some(page.videos[0].duration);
    }
    var n := FirstReading(QueryAll(page, DurationTextSelector));
    r := if n.Some? then Some(Finite(n.value)) else None;
  }

  /** `extractCurrentTime`: a non-zero position of the first video, else the text reading, else null. */
  function ExtractedCurrentTime(page: Page): (r: Option<nat>)
    ensures |page.videos| > 0 && page.videos[0].currentTime != 0 ==> r == Some(page.videos[0].currentTime)
    ensures !(|page.videos| > 0 && page.videos[0].currentTime != 0) ==>
      (r.None? <==> forall i :: 0 <= i < |QueryAll(page, CurrentTimeTextSelector)| ==> !HasTime(QueryAll(page, CurrentTimeTextSelector)[i]))
  {
    if |page.videos| > 0 && page.videos[0].currentTime != 0 then Some(page.videos[0].currentTime)
    else TextReading(QueryAll(page, CurrentTimeTextSelector))
  }

  method ExtractCurrentTime(page: Page) returns (r: Option<nat>)
    ensures r == ExtractedCurrentTime(page)
  {
    if |page.videos| > 0 && page.videos[0].currentTime != 0 {
      return Some(page.videos[0].currentTime);
    }
    r := FirstReading(QueryAll(page, CurrentTimeTextSelector));
  }

  // ---------------------------------------------------------------- extractMovieInfo

  datatype MovieInfo = MovieInfo(
    title: string, url: string, site: string, videoElement: Option<string>,
    duration: Option<MediaTime>, currentTime: Option<nat>, confidence: nat, timestamp: int)

  /** `extractMovieInfo`: nothing unless the page is a movie site; then what the extractors read. */
  method ExtractMovieInfo(where: UrlParts, href: string, page: Page, now: int) returns (r: Option<MovieInfo>)
    ensures r.None? <==> !MovieSite(where, href, page).isMovieSite
    ensures r.Some? ==> r.value == MovieInfo(
      ExtractedTitle(page), href, where.hostname, FindVideoElement(page),
      ExtractedDuration(page), ExtractedCurrentTime(page), MovieSite(where, href, page).confidence, now)
    ensures r.Some? ==> r.value.confidence >= 6
  {
    var detection := DetectMovieSite(where, href, page);
    if !detection.isMovieSite {
      return None;
    }
    MovieSiteVerdict(where, href, page);
    var title := ExtractTitle(page);
    var videoElement := FindVideoElement(page);
    var duration := ExtractDuration(page);
    var currentTime := ExtractCurrentTime(page);
    r := Some(MovieInfo(title, href, where.hostname, videoElement, duration, currentTime, detection.confidence, now));
  }
}
