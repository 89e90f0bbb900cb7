/**
 * The page as the detectors see it: an abstract snapshot of the document
 * and of its media elements, and the page's location as the URL parser
 * leaves it. DOM queries are looked up, never evaluated: a selector string
 * is opaque data.
 */
module Pages {
  import opened Wrappers

  /** A media element's `duration` or `currentTime`, which may be NaN or infinite (a live stream). */
  datatype MediaTime = Finite(seconds: nat) | NaN | Infinity

  /** JavaScript truthiness of a media time: NaN and 0 are falsy, Infinity is truthy. */
  predicate MediaTruthy(t: MediaTime) {
    match t
    case Finite(n) => n != 0
    case NaN => false
    case Infinity => true
  }

  /** A `<video>` element: its position, its length and whether it offers a fullscreen request. */
  datatype Video = Video(currentTime: nat, duration: MediaTime, canFullscreen: bool)

  /**
   * A document snapshot.
   * - `elements`: for each selector with a match, the `textContent` of
   *   `querySelector(selector)`; a selector absent from the map matches nothing.
   * - `lists`: for each selector, the `textContent`s of `querySelectorAll(selector)`
   *   in document order; absent means no match.
   * - `videos`: the `<video>` elements in document order.
   * - `title`: `document.title`.
   */
  datatype Page = Page(
    title: string,
    elements: map<string, string>,
    lists: map<string, seq<string>>,
    videos: seq<Video>)

  const VideoSelector: string := "video"

  /** `document.querySelector(selector)`, seen through its text. */
  function Query(page: Page, selector: string): (r: Option<string>)
    ensures r.Some? <==> selector in page.elements
  {
    if selector in page.elements then Some(page.elements[selector]) else None
  }

  /** `document.querySelector(selector) !== null`; the `video` selector also sees the media list. */
  predicate Present(page: Page, selector: string) {
    selector in page.elements || (selector == VideoSelector && |page.videos| > 0)
  }

  /** The texts of `document.querySelectorAll(selector)`. */
  function QueryAll(page: Page, selector: string): seq<string> {
    if selector in page.lists then page.lists[selector] else []
  }

  /** What the URL parser yields for a well-formed URL. */
  datatype UrlParts = UrlParts(hostname: string, pathname: string, search: string)

  /** A URL string and, when `new URL(href)` does not throw, its parts. */
  datatype Location = Location(href: string, parts: Option<UrlParts>)

  /** The position of the first element of `s` that satisfies `p` (`find` / a loop with `break`). */
  function FirstWhere<T>(s: seq<T>, p: T -> bool): (r: Option<nat>)
    ensures r.Some? ==> r.value < |s| && p(s[r.value])
    ensures r.Some? ==> forall j :: 0 <= j < r.value ==> !p(s[j])
    ensures r.None? ==> forall j :: 0 <= j < |s| ==> !p(s[j])
  {
    if s == [] then None
    else if p(s[0]) then Some(0)
    else match FirstWhere(s[1..], p)
      case None => None
      case Some(i) => Some(i + 1)
  }

  /** `FirstWhere` is pinned down by the first position that satisfies `p`. */
  lemma FirstWhereAt<T>(s: seq<T>, p: T -> bool, i: nat)
    requires i < |s| && p(s[i]) && forall j :: 0 <= j < i ==> !p(s[j])
    ensures FirstWhere(s, p) == Some(i)
  {
  }
}
