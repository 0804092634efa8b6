/** The OpenAlex client: cache check, a bounded retry loop over the provider's
    answers, and normalisation of each returned work into a Paper. The
    provider is the sequence of answers it gives to successive requests. */
module OpenAlex {
  import opened Records
  import opened Cache
  import opened InvertedIndex

  /** `authorships[i].author`, when present. */
  datatype AuthorInfo = AuthorInfo(displayName: Option<string>)
  datatype Authorship = Authorship(author: Option<AuthorInfo>)

  /** One element of `results`. An absent, null or empty inverted index is the
      empty sequence (the source's `if` treats all three alike), and an absent
      `authorships` list is the empty sequence. */
  datatype Work = Work(
    title: Option<string>,
    invertedIndex: seq<Entry>,
    displayName: Option<string>,
    publicationYear: Option<int>,
    citedByCount: Option<int>,
    authorships: seq<Authorship>,
    id: Option<string>)

  /** The JSON body of a response: undecodable, or an object whose `results`
      (absent meaning []) lists the works. */
  datatype Body = Malformed | Json(results: seq<Work>)

  /** What one request ends in: an HTTP response, a timeout, or another exception. */
  datatype Attempt = Response(status: int, body: Body) | Timeout | Failed

  /** The provider's answer to request number k (0-based). */
  type Provider = nat -> Attempt

  const MaxRetries: nat := 3
  const MaxPerPage: int := 200
  const RateLimitedSleep: nat := 5

  /** The `per_page` request parameter: the caller's limit, capped at 200. */
  function PerPage(limit: int): (n: int)
    ensures n <= MaxPerPage && n <= limit
    ensures n == limit || n == MaxPerPage
  {
    if limit < MaxPerPage then limit else MaxPerPage
  }

  /** `a.get('author', {}).get('display_name', 'Unknown')`. */
  function AuthorName(a: Authorship): (name: string)
    ensures a.author.None? ==> name == "Unknown"
    ensures a.author.Some? && a.author.value.displayName.None? ==> name == "Unknown"
    ensures a.author.Some? && a.author.value.displayName.Some? ==> name == a.author.value.displayName.value
  {
    match a.author
    case None => "Unknown"
    case Some(info) => info.displayName.GetOr("Unknown")
  }

  /** The record built for a work, given its rebuilt abstract (None when the
      work has no inverted index). */
  function Normalize(w: Work, rebuilt: Option<string>): (p: Paper)
    ensures w.title.None? ==> p.title == "No title"
    ensures w.title.Some? ==> p.title == w.title.value
    ensures rebuilt.Some? && rebuilt.value != "" ==> p.abstractText == rebuilt.value
    ensures (rebuilt.None? || rebuilt.value == "") && w.displayName.Some? ==> p.abstractText == w.displayName.value
    ensures (rebuilt.None? || rebuilt.value == "") && w.displayName.None? ==> p.abstractText == "No abstract available"
    ensures p.year == w.publicationYear.GetOr(0) && p.citationCount == w.citedByCount.GetOr(0)
    ensures p.url == w.id.GetOr("")
    ensures |p.authors| == |w.authorships|
    ensures forall i :: 0 <= i < |w.authorships| ==> p.authors[i].name == AuthorName(w.authorships[i])
  {
    var abstractText :=
      if rebuilt.Some? && rebuilt.value != "" then rebuilt.value
      else w.displayName.GetOr("No abstract available");
    Paper(
      title := w.title.GetOr("No title"),
      abstractText := abstractText,
      year := w.publicationYear.GetOr(0),
      citationCount := w.citedByCount.GetOr(0),
      authors := seq(|w.authorships|, i requires 0 <= i < |w.authorships| => Author(AuthorName(w.authorships[i]))),
      url := w.id.GetOr(""))
  }

  /** The record for one work, or None when rebuilding its abstract raises. */
  function WorkPaper(w: Work): (r: Option<Paper>)
    ensures r.None? <==> w.invertedIndex != [] && !WellFormed(w.invertedIndex)
    ensures w.invertedIndex == [] ==> r == Some(Normalize(w, None))
    ensures r.Some? && w.invertedIndex != [] ==> r == Some(Normalize(w, Rebuild(w.invertedIndex)))
  {
    if w.invertedIndex == [] then Some(Normalize(w, None))
    else
      match Rebuild(w.invertedIndex)
      case None => None
      case Some(a) => Some(Normalize(w, Some(a)))
  }

  /** The records for all works, in order, or None when any work raises. */
  function NormalizeAll(works: seq<Work>): (r: Option<seq<Paper>>)
    ensures r.Some? ==> |r.value| == |works|
  {
    MapAll(WorkPaper, works)
  }

  /** The list is normalised exactly when every work is, and then its i-th
      record is the i-th work's: order is kept and nothing is dropped. */
  lemma NormalizeAllRecords(works: seq<Work>)
    ensures NormalizeAll(works).Some? <==> forall i :: 0 <= i < |works| ==> WorkPaper(works[i]).Some?
    ensures NormalizeAll(works).Some? ==>
      forall i :: 0 <= i < |works| ==> WorkPaper(works[i]) == Some(NormalizeAll(works).value[i])
  {
    MapAllSucceeds(WorkPaper, works);
    if NormalizeAll(works).Some? {
      MapAllElements(WorkPaper, works);
    }
  }

  /** One iteration of the source's loop: rebuild the abstract when the work
      has an index (raising on a malformed one), then normalise the work. */
  method NormalizeWork(w: Work) returns (r: Option<Paper>)
    ensures r == WorkPaper(w)
  {
    var rebuilt: Option<string> := None;
    if w.invertedIndex != [] {
      rebuilt := RebuildAbstract(w.invertedIndex);
      if rebuilt.None? {
        return None;
      }
    }
    return Some(Normalize(w, rebuilt));
  }

  /** Builds the records one work at a time, appending each, as the source's loop does. */
  method NormalizeResults(works: seq<Work>) returns (r: Option<seq<Paper>>)
    ensures r == NormalizeAll(works)
  {
    var papers: seq<Paper> := [];
    for k := 0 to |works|
      invariant NormalizeAll(works[..k]) == Some(papers)
    {
      var p := NormalizeWork(works[k]);
      if p.None? {
        MapAllSucceeds(WorkPaper, works);
        return None;
      }
      MapAllExtend(WorkPaper, works, k, papers, p.value);
      papers := papers + [p.value];
    }
    assert works[..|works|] == works;
    return Some(papers);
  }

  /** What the loop does after one attempt: return (saving the list to the
      cache or not), or sleep and go on to the next attempt. */
  datatype Step = Finish(papers: seq<Paper>, save: bool) | Retry(sleep: nat)

  /** A timeout, a 5xx or an exception: retry after a linear backoff unless
      this was the last attempt, which gives up with []. */
  function Transient(attempt: nat): (s: Step)
    ensures s.Retry? <==> attempt < MaxRetries - 1
    ensures s.Finish? ==> s == Finish([], false)
  {
    if attempt < MaxRetries - 1 then Retry(2 * (attempt + 1)) else Finish([], false)
  }

  /** How the handler classifies the answer to request number `attempt`. */
  function Classify(o: Attempt, attempt: nat): (s: Step)
    ensures s.Finish? && s.save ==> o.Response? && o.status == 200 && o.body.Json? && NormalizeAll(o.body.results) == Some(s.papers)
    ensures s.Finish? && !s.save ==> s.papers == []
    ensures o.Response? && o.status == 200 && o.body.Json? && NormalizeAll(o.body.results).Some? ==> s.Finish? && s.save
    ensures o.Response? && o.status == 429 ==> s == Retry(RateLimitedSleep)
    ensures o.Response? && o.status != 200 && o.status != 429 && o.status < 500 ==> s == Finish([], false)
    ensures o.Timeout? || o.Failed? || (o.Response? && o.status >= 500) ==> s == Transient(attempt)
    ensures o.Response? && o.status == 200 && (o.body.Malformed? || NormalizeAll(o.body.results).None?) ==> s == Transient(attempt)
  {
    match o
    case Response(status, body) =>
      if status == 200 then
        match body
        case Malformed => Transient(attempt)
        case Json(works) =>
          match NormalizeAll(works)
          case Some(ps) => Finish(ps, true)
          case None => Transient(attempt)
      else if status == 429 then Retry(RateLimitedSleep)
      else if status >= 500 then Transient(attempt)
      else Finish([], false)
    case Timeout => Transient(attempt)
    case Failed => Transient(attempt)
  }

  /** The body of the retry loop for one answer: normalise a 200 answer (an
      undecodable body or a malformed abstract raises and is handled like any
      other exception), sleep and retry on 429, back off on a timeout, a 5xx or
      an exception unless this was the last attempt, give up on any other status. */
  method HandleAttempt(answer: Attempt, attempt: nat) returns (step: Step)
    ensures step == Classify(answer, attempt)
  {
    if answer.Response? && answer.status == 200 {
      if answer.body.Json? {
        var normalized := NormalizeResults(answer.body.results);
        if normalized.Some? {
          return Finish(normalized.value, true);
        }
      }
      // Decoding or normalising raised: handled like any other exception.
      step := Transient(attempt);
    } else if answer.Response? && answer.status == 429 {
      step := Retry(RateLimitedSleep);
    } else if answer.Timeout? || answer.Failed? || answer.status >= 500 {
      step := Transient(attempt);
    } else {
      step := Finish([], false);
    }
  }

  /** The retry loop's outcome: the papers returned, whether they were saved to
      the cache, and how many requests were sent. */
  datatype RetryResult = RetryResult(papers: seq<Paper>, save: bool, requests: nat)

  /** The retry loop run from request number `attempt` on. */
  function RetryFrom(outcomes: Provider, attempt: nat): (r: RetryResult)
    requires attempt <= MaxRetries
    decreases MaxRetries - attempt
    ensures attempt <= r.requests <= MaxRetries
    ensures attempt < MaxRetries ==> attempt < r.requests
    ensures !r.save ==> r.papers == []
    ensures r.save ==> 0 < r.requests && Classify(outcomes(r.requests - 1), r.requests - 1) == Finish(r.papers, true)
    ensures forall k :: attempt <= k < r.requests - 1 ==> Classify(outcomes(k), k).Retry?
    ensures attempt < r.requests < MaxRetries ==> Classify(outcomes(r.requests - 1), r.requests - 1).Finish?
    ensures attempt < r.requests && Classify(outcomes(r.requests - 1), r.requests - 1).Finish? ==>
      Classify(outcomes(r.requests - 1), r.requests - 1) == Finish(r.papers, r.save)
    ensures attempt < r.requests && Classify(outcomes(r.requests - 1), r.requests - 1).Retry? ==>
      r == RetryResult([], false, MaxRetries)
  {
    if attempt == MaxRetries then RetryResult([], false, MaxRetries)
    else
      var step := Classify(outcomes(attempt), attempt);
      if step.Finish? then RetryResult(step.papers, step.save, attempt + 1)
      else RetryFrom(outcomes, attempt + 1)
  }

  /** `search_papers` as a function of the cache directory and the provider. */
  function OpenAlexSearch(files: map<string, CacheFile>, digest: string -> string, query: string, outcomes: Provider): (r: SearchResult)
    ensures var key := CacheKey(digest, query, "openalex");
      && (CacheHit(files, key) ==> r == SearchResult(GetCached(files, key).value, 0, files))
      && (!CacheHit(files, key) ==> 1 <= r.requests <= MaxRetries)
      && (r.files == files || r.files == files[key := Stored(r.papers)])
    ensures var key := CacheKey(digest, query, "openalex");
      var rr := RetryFrom(outcomes, 0);
      !CacheHit(files, key) ==>
        && r.papers == rr.papers && r.requests == rr.requests
        && r.files == (if rr.save then files[key := Stored(rr.papers)] else files)
  {
    var key := CacheKey(digest, query, "openalex");
    var cached := GetCached(files, key);
    if cached.Some? && cached.value != [] then SearchResult(cached.value, 0, files)
    else
      var rr := RetryFrom(outcomes, 0);
      SearchResult(rr.papers, rr.requests, if rr.save then files[key := Stored(rr.papers)] else files)
  }

  /** A search that returns papers leaves them in the cache, so the same query
      again returns the same papers without a request and without touching
      the cache, whatever the provider would answer. */
  lemma SearchIdempotent(files: map<string, CacheFile>, digest: string -> string, query: string, first: Provider, second: Provider)
    ensures var r1 := OpenAlexSearch(files, digest, query, first);
      r1.papers != [] ==> OpenAlexSearch(r1.files, digest, query, second) == SearchResult(r1.papers, 0, r1.files)
  {
    var key := CacheKey(digest, query, "openalex");
    var r1 := OpenAlexSearch(files, digest, query, first);
    if r1.papers != [] && !CacheHit(files, key) {
      assert r1.files == files[key := Stored(r1.papers)];
    }
  }

  /** A client error other than 429 stops the loop at once with [], and
      nothing is cached. */
  lemma PermanentErrorNotRetried(outcomes: Provider)
    requires outcomes(0).Response? && outcomes(0).status != 200 && outcomes(0).status != 429
    requires outcomes(0).status < 500
    ensures RetryFrom(outcomes, 0) == RetryResult([], false, 1)
  {
  }

  /** Timeouts, 5xx answers and exceptions on every attempt: three requests,
      then [] with nothing cached. */
  lemma TransientFailuresGiveUp(outcomes: Provider)
    requires forall k: nat :: k < MaxRetries ==> outcomes(k).Timeout? || outcomes(k).Failed? || (outcomes(k).Response? && outcomes(k).status >= 500)
    ensures RetryFrom(outcomes, 0) == RetryResult([], false, MaxRetries)
  {
    assert Classify(outcomes(0), 0).Retry?;
    assert Classify(outcomes(1), 1).Retry?;
    assert Classify(outcomes(2), 2) == Finish([], false);
  }

  /** A rate-limit answer on the last attempt still ends the loop with []. */
  lemma RateLimitedToTheEnd(outcomes: Provider)
    requires forall k: nat :: k < MaxRetries ==> outcomes(k).Response? && outcomes(k).status == 429
    ensures RetryFrom(outcomes, 0) == RetryResult([], false, MaxRetries)
  {
    assert Classify(outcomes(0), 0).Retry?;
    assert Classify(outcomes(1), 1).Retry?;
    assert Classify(outcomes(2), 2).Retry?;
  }

  /** A transient failure followed by a usable answer: two requests, and the
      second answer's records are returned and cached. */
  lemma RecoversAfterTransient(outcomes: Provider, works: seq<Work>)
    requires outcomes(0).Timeout? || outcomes(0).Failed? || (outcomes(0).Response? && outcomes(0).status >= 500)
    requires outcomes(1) == Response(200, Json(works)) && NormalizeAll(works).Some?
    ensures RetryFrom(outcomes, 0) == RetryResult(NormalizeAll(works).value, true, 2)
  {
    assert Classify(outcomes(0), 0).Retry?;
  }

  /** Giving up always returns [] and never caches; a non-empty answer is
      always the normalised records of a 200 response, and is cached. */
  lemma GiveUpIsEmpty(files: map<string, CacheFile>, digest: string -> string, query: string, outcomes: Provider)
    requires !CacheHit(files, CacheKey(digest, query, "openalex"))
    ensures var r := OpenAlexSearch(files, digest, query, outcomes);
      r.files == files ==> r.papers == []
  {
  }

  /** `OpenAlexAPI`: a client over the shared cache directory. */
  class OpenAlexAPI {
    const cache: CacheDir

    constructor (cache: CacheDir)
      ensures this.cache == cache
    {
      this.cache := cache;
    }

    /** Answers from the cache when it holds a non-empty list; otherwise sends
        up to three requests, normalising and caching the first usable answer. */
    method SearchPapers(query: string, outcomes: Provider) returns (papers: seq<Paper>, requests: nat)
      modifies cache
      ensures SearchResult(papers, requests, cache.files) == OpenAlexSearch(old(cache.files), cache.digest, query, outcomes)
    {
      var key := CacheKey(cache.digest, query, "openalex");
      var cached := GetCached(cache.files, key);
      if cached.Some? && cached.value != [] {
        return cached.value, 0;
      }
      var attempt: nat := 0;
      while attempt < MaxRetries
        invariant attempt <= MaxRetries
        invariant cache.files == old(cache.files)
        invariant RetryFrom(outcomes, attempt) == RetryFrom(outcomes, 0)
      {
        var step := HandleAttempt(outcomes(attempt), attempt);
        if step.Finish? {
          if step.save {
            cache.SaveCache(key, step.papers);
          }
          return step.papers, attempt + 1;
        }
        // Sleeps step.sleep seconds, then sends the next request.
        attempt := attempt + 1;
      }
      return [], MaxRetries;
    }
  }
}
