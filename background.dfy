/**
 * The background service worker: an in-memory table of the movies being
 * watched, one entry per `serviceName_title_tabId`, fed by the content
 * scripts' messages and pruned when a tab closes.
 */
module Background {
  import opened Strings
  import opened JsValues
  import opened Wrappers
  import opened Detection
  import opened MovieDetection

  /** `${movieData.serviceName}_${movieData.title}_${tab.id}`. */
  function EntryKey(data: Object, tabId: int): string {
    FieldText(data, "serviceName") + "_" + FieldText(data, "title") + "_" + IntToString(tabId)
  }

  /** `{...movieData, tabId, firstDetected: movieData.firstDetected || now, lastUpdated: now}`. */
  function DetectedEntry(data: Object, tabId: int, now: int): (e: Object)
    ensures e.Keys == data.Keys + {"tabId", "firstDetected", "lastUpdated"}
    ensures e["tabId"] == Num(tabId) && e["lastUpdated"] == Num(now)
    ensures e["firstDetected"] == if FieldTruthy(data, "firstDetected") then data["firstDetected"] else Num(now)
    ensures forall k :: k in data && k !in {"tabId", "firstDetected", "lastUpdated"} ==> e[k] == data[k]
  {
    data + map[
      "tabId" := Num(tabId),
      "firstDetected" := (if FieldTruthy(data, "firstDetected") then data["firstDetected"] else Num(now)),
      "lastUpdated" := Num(now)]
  }

  /** `{...stored, ...movieData, lastUpdated: now}`. */
  function ProgressEntry(stored: Object, data: Object, now: int): (e: Object)
    ensures e.Keys == stored.Keys + data.Keys + {"lastUpdated"}
    ensures e["lastUpdated"] == Num(now)
    ensures forall k :: k in data && k != "lastUpdated" ==> e[k] == data[k]
    ensures forall k :: k in stored && k !in data && k != "lastUpdated" ==> e[k] == stored[k]
  {
    stored + data + map["lastUpdated" := Num(now)]
  }

  /** `movieDatabase[key].tabId === tabId`. */
  predicate OnTab(e: Object, tabId: int) {
    "tabId" in e && e["tabId"] == Num(tabId)
  }

  /** The table after a tab closes. */
  function WithoutTab(table: map<string, Object>, tabId: int): (r: map<string, Object>)
    ensures forall k :: k in r <==> k in table && !OnTab(table[k], tabId)
    ensures forall k :: k in r ==> r[k] == table[k]
  {
    map k | k in table && !OnTab(table[k], tabId) :: table[k]
  }

  /**
   * A progress update of an entry written by a detection keeps the tab
   * and the first detection time when the message does not carry them.
   */
  lemma ProgressAfterDetection(d1: Object, d2: Object, tabId: int, t1: int, t2: int)
    requires "tabId" !in d2 && "firstDetected" !in d2
    ensures var e := ProgressEntry(DetectedEntry(d1, tabId, t1), d2, t2);
      && e["tabId"] == Num(tabId) && e["lastUpdated"] == Num(t2)
      && e["firstDetected"] == DetectedEntry(d1, tabId, t1)["firstDetected"]
      && OnTab(e, tabId)
  {
  }

  /** Once its tab closes, an entry written for that tab is gone. */
  lemma DetectedThenClosed(table: map<string, Object>, data: Object, tabId: int, now: int)
    ensures EntryKey(data, tabId) !in WithoutTab(table[EntryKey(data, tabId) := DetectedEntry(data, tabId, now)], tabId)
  {
  }

  // ---------------------------------------------------------------- the detector's messages as JSON

  /** The title as it reaches the background: a string, or `null`. */
  function TitleValue(t: Option<string>): Value {
    match t
    case Some(s) => Str(s)
    case None => Null
  }

  /** The JSON the content script sends for a context (its confidence, a fraction, is not carried). */
  function ContextObject(c: MovieContext): (o: Object)
    ensures "serviceName" in o && "title" in o
    ensures o["serviceName"] == Str(c.serviceName) && o["title"] == TitleValue(c.title)
    ensures "tabId" !in o && "firstDetected" !in o
  {
    var base := map[
      "url" := Str(c.url), "domain" := Str(c.domain), "serviceName" := Str(c.serviceName),
      "category" := Str(c.category), "title" := TitleValue(c.title), "isMoviePage" := Bool(c.isMoviePage),
      "currentTime" := Num(c.currentTime), "duration" := Num(c.duration)];
    match c.timestamp
    case Some(t) => base["timestamp" := Num(t)]
    case None => base
  }

  /**
   * Every progress message of a detection round addresses the same table
   * entry as the message that announced the movie in that tab.
   */
  lemma ProgressKeyMatchesDetection(current: MovieContext, verdict: Option<MovieContext>, now: int, tabId: int)
    requires HasTitle(current)
    ensures forall k ::
      (0 <= k < |DetectRound(Some(current), verdict, now).sent| &&
       DetectRound(Some(current), verdict, now).sent[k].kind == ProgressUpdate) ==>
      EntryKey(ContextObject(DetectRound(Some(current), verdict, now).sent[k].data), tabId)
        == EntryKey(ContextObject(current), tabId)
  {
    var r := DetectRound(Some(current), verdict, now);
    if verdict.Some? && HasTitle(verdict.value) && !IsNewMovie(Some(current), verdict.value) && r.sent != [] {
      var m := r.current.value;
      assert r.sent[0].data == m;
      assert FieldText(ContextObject(m), "serviceName") == FieldText(ContextObject(current), "serviceName");
      assert FieldText(ContextObject(m), "title") == FieldText(ContextObject(current), "title");
    }
  }

  // ---------------------------------------------------------------- the worker

  /** A runtime message: its `type` and its `data`. */
  datatype Incoming = Incoming(kind: Value, data: Object)

  const MovieDetectedType: string := "MOVIE_DETECTED"
  const ProgressUpdateType: string := "PROGRESS_UPDATE"

  class ServiceWorker {
    /** `movieDatabase`. */
    var movieDatabase: map<string, Object>

    /** The worker starts from what extension storage held (`data || {}`). */
    constructor (stored: map<string, Object>)
      ensures movieDatabase == stored
    {
      movieDatabase := stored;
    }

    /** `handleMovieDetected`: the entry is written, or overwritten. */
    method HandleMovieDetected(data: Object, tabId: int, now: int)
      modifies this
      ensures movieDatabase == old(movieDatabase)[EntryKey(data, tabId) := DetectedEntry(data, tabId, now)]
    {
      var key := EntryKey(data, tabId);
      var firstDetected := if "firstDetected" in data && Truthy(data["firstDetected"]) then data["firstDetected"] else Num(now);
      var entry := data["tabId" := Num(tabId)]["firstDetected" := firstDetected]["lastUpdated" := Num(now)];
      assert entry == DetectedEntry(data, tabId, now);
      movieDatabase := movieDatabase[key := entry];
    }

    /** `handleProgressUpdate`: only an existing entry is updated; an unknown key changes nothing. */
    method HandleProgressUpdate(data: Object, tabId: int, now: int)
      modifies this
      ensures EntryKey(data, tabId) !in old(movieDatabase) ==> unchanged(this)
      ensures EntryKey(data, tabId) in old(movieDatabase) ==>
        var key := EntryKey(data, tabId);
        var entry := ProgressEntry(old(movieDatabase)[key], data, now);
        movieDatabase == old(movieDatabase)[key := entry]
    {
      var key := EntryKey(data, tabId);
      if key in movieDatabase {
        var entry := movieDatabase[key] + data;
        entry := entry["lastUpdated" := Num(now)];
        assert entry == ProgressEntry(movieDatabase[key], data, now);
        movieDatabase := movieDatabase[key := entry];
      }
    }

    /** The `onRemoved` listener: exactly the entries of the closed tab leave the table. */
    method OnTabRemoved(tabId: int)
      modifies this
      ensures movieDatabase == WithoutTab(old(movieDatabase), tabId)
    {
      ghost var start := movieDatabase;
      var table := movieDatabase;
      var keys := table.Keys;
      while keys != {}
        invariant unchanged(this)
        invariant keys <= start.Keys
        invariant table == map k | k in start && (k in keys || !OnTab(start[k], tabId)) :: start[k]
        decreases |keys|
      {
        var k :| k in keys;
        if "tabId" in table[k] && table[k]["tabId"] == Num(tabId) {
          table := table - {k};
        }
        keys := keys - {k};
      }
      movieDatabase := table;
    }

    /** The message listener's switch on `message.type`; any other type changes nothing. */
    method OnMessage(message: Incoming, tabId: int, now: int) returns (r: bool)
      modifies this
      ensures r
      ensures message.kind == Str(MovieDetectedType) ==>
        movieDatabase == old(movieDatabase)[EntryKey(message.data, tabId) := DetectedEntry(message.data, tabId, now)]
      ensures message.kind == Str(ProgressUpdateType) ==>
        var key := EntryKey(message.data, tabId);
        key in old(movieDatabase) ==>
          movieDatabase == old(movieDatabase)[key := ProgressEntry(old(movieDatabase)[key], message.data, now)]
      ensures message.kind == Str(ProgressUpdateType) && EntryKey(message.data, tabId) !in old(movieDatabase) ==>
        unchanged(this)
      ensures message.kind != Str(MovieDetectedType) && message.kind != Str(ProgressUpdateType) ==> unchanged(this)
    {
      if message.kind == Str(MovieDetectedType) {
        HandleMovieDetected(message.data, tabId, now);
      } else if message.kind == Str(ProgressUpdateType) {
        HandleProgressUpdate(message.data, tabId, now);
      }
      r := true;
    }
  }
}
