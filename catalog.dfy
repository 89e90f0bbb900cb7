/**
 * The built-in catalog that `seedKnownServices` writes into the known
 * store: thirteen services with their URL patterns and DOM queries. The
 * query strings are opaque data to the model.
 */
module Catalog {
  import opened Services

  datatype CatalogEntry = CatalogEntry(
    domain: string, name: string, category: string,
    patterns: seq<string>, selectors: map<string, string>)

  function Selectors(title: string, duration: string, progress: string): map<string, string> {
    map["title" := title, "duration" := duration, "progress" := progress]
  }

  const KnownServices: seq<CatalogEntry> := [
    CatalogEntry("netflix.com", "Netflix", "premium", ["/watch/", "/title/"],
      Selectors("[data-uia=\"video-title\"], .video-title, h1", "[data-uia=\"video-duration\"]", ".progress-bar, .scrub-bar")),
    CatalogEntry("hulu.com", "Hulu", "premium", ["/watch/", "/series/"],
      Selectors(".content-pack__title, h1", ".time-display__duration", ".progress-bar")),
    CatalogEntry("amazon.com", "Prime Video", "premium", ["/gp/video/detail/", "/dp/"],
      Selectors("[data-automation-id=\"title\"], h1", ".duration", ".progress-bar")),
    CatalogEntry("primevideo.com", "Prime Video", "premium", ["/detail/", "/watch/"],
      Selectors("[data-automation-id=\"title\"], h1", ".duration", ".progress-bar")),
    CatalogEntry("disneyplus.com", "Disney+", "premium", ["/video/", "/movies/", "/series/"],
      Selectors(".title-field, h1", ".time-duration", ".progress-bar")),
    CatalogEntry("hbomax.com", "HBO Max", "premium", ["/feature/", "/series/", "/episode/"],
      Selectors("[data-testid=\"title\"], h1", ".duration-label", ".scrubber-bar")),
    CatalogEntry("crunchyroll.com", "Crunchyroll", "anime", ["/watch/", "/series/"],
      Selectors(".episode-title, .series-title, h1", ".time-total", ".progress-bar")),
    CatalogEntry("funimation.com", "Funimation", "anime", ["/shows/", "/v/"],
      Selectors(".show-headline, h1", ".duration", ".vjs-progress-holder")),
    CatalogEntry("youtube.com", "YouTube", "free", ["/watch?v="],
      Selectors("h1.title, .watch-main-col h1", ".ytp-time-duration", ".ytp-progress-bar")),
    CatalogEntry("tubi.tv", "Tubi", "free", ["/movies/", "/tv-shows/", "/watch/"],
      Selectors(".watch-page-title, h1", ".duration-text", ".progress-bar")),
    CatalogEntry("pluto.tv", "Pluto TV", "free", ["/on-demand/", "/movies/", "/tv/"],
      Selectors(".title, h1", ".duration", ".progress-bar")),
    CatalogEntry("paramount.com", "Paramount+", "premium", ["/shows/", "/movies/", "/video/"],
      Selectors(".video-player__title, h1", ".video-player__duration", ".progress-bar")),
    CatalogEntry("peacocktv.com", "Peacock", "freemium", ["/watch/", "/movies/", "/tv/"],
      Selectors(".title, h1", ".duration", ".progress-bar"))
  ]

  /** The record written for a catalog entry: `addedDate` is now and it is marked known. */
  function Stamp(e: CatalogEntry, now: int): (r: ServiceRecord)
    ensures r.domain == e.domain && r.origin == Known(now)
    ensures r.name == e.name && r.category == e.category && r.patterns == e.patterns && r.selectors == e.selectors
  {
    ServiceRecord(e.domain, e.name, e.category, e.patterns, e.selectors, Known(now))
  }

  /** No two catalog entries share a domain, so no `put` of the seeding loop overwrites another. */
  lemma CatalogDomainsDistinct()
    ensures |KnownServices| == 13
    ensures forall i, j :: 0 <= i < j < |KnownServices| ==> KnownServices[i].domain != KnownServices[j].domain
  {
  }
}
