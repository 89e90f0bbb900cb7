/**
 * `MovieDetector`: the content script's per-page state machine. Each
 * detection round takes the detector's verdict on the page and either
 * announces a new movie, reports progress on the current one, or forgets
 * it. What the content script hands to the background and to the page
 * (`sendToBackground` plus the window event) is kept as one message log.
 */
module MovieDetection {
  import opened Wrappers
  import opened Detection

  /** The `type` of a message to the background. */
  datatype MessageKind = MovieDetected | ProgressUpdate

  /** `{type, data, timestamp}`, as `sendToBackground` builds it. */
  datatype Message = Message(kind: MessageKind, data: MovieContext, timestamp: int)

  /** `context && context.title`: a context with a non-empty title. */
  predicate HasTitle(c: MovieContext) {
    c.title.Some? && c.title.value != ""
  }

  /** The test of `detectMovie`: no current movie, or another title or URL. */
  predicate IsNewMovie(current: Option<MovieContext>, c: MovieContext) {
    current.None? || current.value.title != c.title || current.value.url != c.url
  }

  /** What a detection round leaves: the current movie and the messages it sent. */
  datatype Round = Round(current: Option<MovieContext>, sent: seq<Message>)

  /**
   * `updateProgress`: on a change of position or length, the current movie
   * takes the new position, length and `now`, and is reported; otherwise
   * nothing happens.
   */
  function ProgressRound(current: MovieContext, c: MovieContext, now: int): (r: Round)
    ensures r.current.Some?
    ensures var m := r.current.value;
      && m.url == current.url && m.domain == current.domain && m.serviceName == current.serviceName
      && m.category == current.category && m.title == current.title
      && m.isMoviePage == current.isMoviePage && m.confidence == current.confidence
    ensures r.sent != [] <==> c.currentTime != current.currentTime || c.duration != current.duration
    ensures r.sent == [] ==> r.current == Some(current)
    ensures r.sent != [] ==>
      && r.sent == [Message(ProgressUpdate, r.current.value, now)]
      && r.current.value.currentTime == c.currentTime && r.current.value.duration == c.duration
      && r.current.value.timestamp == Some(now)
  {
    if c.currentTime != current.currentTime || c.duration != current.duration then
      var m := current.(currentTime := c.currentTime, duration := c.duration, timestamp := Some(now));
      Round(Some(m), [Message(ProgressUpdate, m, now)])
    else Round(Some(current), [])
  }

  /** One round of `detectMovie` on an active detector, given the detector's verdict. */
  function DetectRound(current: Option<MovieContext>, verdict: Option<MovieContext>, now: int): (r: Round)
    ensures |r.sent| <= 1
    ensures verdict.None? || !HasTitle(verdict.value) ==> r == Round(None, [])
    ensures verdict.Some? && HasTitle(verdict.value) && IsNewMovie(current, verdict.value) ==>
      r == Round(verdict, [Message(MovieDetected, verdict.value, now)])
    ensures verdict.Some? && HasTitle(verdict.value) && !IsNewMovie(current, verdict.value) ==>
      r == ProgressRound(current.value, verdict.value, now)
    ensures r.current.Some? ==>
      (verdict.Some? && HasTitle(verdict.value) &&
       r.current.value.title == verdict.value.title && r.current.value.url == verdict.value.url)
  {
    match verdict
    case Some(c) =>
      if !HasTitle(c) then Round(None, [])
      else if IsNewMovie(current, c) then Round(verdict, [Message(MovieDetected, c, now)])
      else ProgressRound(current.value, c, now)
    case None => Round(None, [])
  }

  /** The same verdict a second time is quiet: the movie is known and its position has not moved. */
  lemma RepeatIsQuiet(current: Option<MovieContext>, verdict: Option<MovieContext>, now: int, later: int)
    ensures var first := DetectRound(current, verdict, now);
      DetectRound(first.current, verdict, later) == Round(first.current, [])
  {
  }

  /** A movie announced once is reported afterwards only through progress messages, while its title and URL stay. */
  lemma KnownMovieOnlyProgresses(current: MovieContext, verdict: MovieContext, now: int)
    requires HasTitle(verdict) && verdict.title == current.title && verdict.url == current.url
    ensures forall k :: 0 <= k < |DetectRound(Some(current), Some(verdict), now).sent| ==>
      DetectRound(Some(current), Some(verdict), now).sent[k].kind == ProgressUpdate
  {
  }

  /** The observer entries `setupObservers` registers. */
  const ObserverNames: set<string> := {"videoDom", "title"}

  class MovieDetector {
    var currentMovie: Option<MovieContext>
    var isActive: bool
    var initialized: bool
    /** The keys of the `observers` map. */
    var observers: set<string>
    /** Whether `detectionInterval` holds a running timer. */
    var polling: bool
    /** Everything sent to the background, in order. */
    var sent: seq<Message>

    /** An active detector is initialized, and the current movie and every message carry a title. */
    ghost predicate Valid()
      reads this
    {
      && (isActive ==> initialized)
      && (currentMovie.Some? ==> HasTitle(currentMovie.value))
      && (forall k :: 0 <= k < |sent| ==> HasTitle(sent[k].data))
    }

    constructor ()
      ensures Valid()
      ensures currentMovie.None? && !isActive && !initialized && observers == {} && !polling && sent == []
    {
      currentMovie := None;
      isActive := false;
      initialized := false;
      observers := {};
      polling := false;
      sent := [];
    }

    /** `isReady`. */
    function IsReady(): (r: bool)
      reads this
      ensures r <==> initialized
    {
      initialized
    }

    /**
     * `detectMovie`, given what `detectMovieContext` answered for the page:
     * an inactive or uninitialized detector ignores the round.
     */
    method DetectMovie(verdict: Option<MovieContext>, now: int)
      requires Valid()
      modifies this
      ensures Valid()
      ensures !old(isActive) || !old(initialized) ==> unchanged(this)
      ensures old(isActive) && old(initialized) ==>
        var r := DetectRound(old(currentMovie), verdict, now);
        currentMovie == r.current && sent == old(sent) + r.sent
      ensures isActive == old(isActive) && initialized == old(initialized)
      ensures observers == old(observers) && polling == old(polling)
    {
      if !isActive || !initialized {
        return;
      }
      if verdict.Some? && HasTitle(verdict.value) {
        var context := verdict.value;
        var isNewMovie := currentMovie.None? || currentMovie.value.title != context.title
          || currentMovie.value.url != context.url;
        if isNewMovie {
          currentMovie := verdict;
          OnMovieDetected(context, now);
        } else {
          UpdateProgress(context, now);
        }
      } else if currentMovie.Some? {
        currentMovie := None;
      }
    }

    /** `updateProgress`: only a change of position or length is recorded and reported. */
    method UpdateProgress(movie: MovieContext, now: int)
      requires Valid()
      modifies this
      ensures Valid()
      ensures old(currentMovie).None? ==> unchanged(this)
      ensures old(currentMovie).Some? ==>
        var r := ProgressRound(old(currentMovie).value, movie, now);
        currentMovie == r.current && sent == old(sent) + r.sent
      ensures isActive == old(isActive) && initialized == old(initialized)
      ensures observers == old(observers) && polling == old(polling)
    {
      if currentMovie.None? {
        return;
      }
      var current := currentMovie.value;
      var changed := movie.currentTime != current.currentTime || movie.duration != current.duration;
      if changed {
        currentMovie := Some(current.(currentTime := movie.currentTime, duration := movie.duration, timestamp := Some(now)));
        OnProgressUpdate(currentMovie.value, now);
      }
    }

    /** `onMovieDetected`: the overlay is not modelled; the movie is sent. */
    method OnMovieDetected(movie: MovieContext, now: int)
      requires Valid() && HasTitle(movie)
      modifies this
      ensures Valid()
      ensures sent == old(sent) + [Message(MovieDetected, movie, now)]
      ensures currentMovie == old(currentMovie) && isActive == old(isActive) && initialized == old(initialized)
      ensures observers == old(observers) && polling == old(polling)
    {
      sent := sent + [Message(MovieDetected, movie, now)];
    }

    /** `onProgressUpdate`. */
    method OnProgressUpdate(movie: MovieContext, now: int)
      requires Valid() && HasTitle(movie)
      modifies this
      ensures Valid()
      ensures sent == old(sent) + [Message(ProgressUpdate, movie, now)]
      ensures currentMovie == old(currentMovie) && isActive == old(isActive) && initialized == old(initialized)
      ensures observers == old(observers) && polling == old(polling)
    {
      sent := sent + [Message(ProgressUpdate, movie, now)];
    }

    /**
     * `init`, given what the detector answered: `None` when it threw, else
     * whether the site is a streaming site; on a streaming site detection
     * starts with a first round on `verdict`, the timer and the two observers.
     */
    method Init(streaming: Option<bool>, verdict: Option<MovieContext>, now: int)
      requires Valid()
      modifies this
      ensures Valid() && initialized
      ensures old(initialized) ==> unchanged(this)
      ensures !old(initialized) && streaming != Some(true) ==>
        isActive == old(isActive) && currentMovie == old(currentMovie) && sent == old(sent)
        && observers == old(observers) && polling == old(polling)
      ensures !old(initialized) && streaming == Some(true) ==>
        var r := DetectRound(old(currentMovie), verdict, now);
        isActive && polling && observers == ObserverNames
        && currentMovie == r.current && sent == old(sent) + r.sent
    {
      if initialized {
        return;
      }
      if streaming != Some(true) {
        initialized := true;
        return;
      }
      isActive := true;
      initialized := true;
      StartDetection(verdict, now);
    }

    /** `startDetection`: a first round, the three-second timer, the observers. */
    method StartDetection(verdict: Option<MovieContext>, now: int)
      requires Valid()
      modifies this
      ensures Valid()
      ensures isActive == old(isActive) && initialized == old(initialized)
      ensures old(isActive) && old(initialized) ==>
        var r := DetectRound(old(currentMovie), verdict, now);
        currentMovie == r.current && sent == old(sent) + r.sent
      ensures !old(isActive) || !old(initialized) ==> currentMovie == old(currentMovie) && sent == old(sent)
      ensures polling && observers == ObserverNames
    {
      DetectMovie(verdict, now);
      polling := true;
      SetupObservers();
    }

    /** `setupObservers`: the old observers go, the DOM and title observers come. */
    method SetupObservers()
      requires Valid()
      modifies this
      ensures Valid()
      ensures observers == ObserverNames
      ensures currentMovie == old(currentMovie) && sent == old(sent) && polling == old(polling)
      ensures isActive == old(isActive) && initialized == old(initialized)
    {
      observers := {};
      observers := observers + {"videoDom"};
      observers := observers + {"title"};
    }

    /**
     * `destroy`: inactive, uninitialized, no timer and no observers, so
     * every later `detectMovie` is ignored until `init` runs again.
     */
    method Destroy()
      requires Valid()
      modifies this
      ensures Valid()
      ensures !isActive && !initialized && observers == {} && !polling
      ensures currentMovie == old(currentMovie) && sent == old(sent)
    {
      isActive := false;
      initialized := false;
      polling := false;
      observers := {};
    }
  }
}
