/** The arXiv client: cache check, then one pass over the library's result
    stream, which may break off with an exception part-way. */
module Arxiv {
  import opened Records
  import opened Cache

  /** The fields of one arXiv library result that the client reads. */
  datatype ArxivResult = ArxivResult(
    title: string,
    summary: string,
    publishedYear: int,
    authorNames: seq<string>,
    entryId: string)

  /** The result stream: the results it yields, and whether it then raises
      instead of ending normally. */
  datatype Feed = Feed(results: seq<ArxivResult>, failsAfter: bool)

  /** The record for one arXiv result; arXiv has no citation counts. */
  function ToPaper(r: ArxivResult): (p: Paper)
    ensures p.citationCount == 0
    ensures p.title == r.title && p.abstractText == r.summary && p.year == r.publishedYear && p.url == r.entryId
    ensures |p.authors| == |r.authorNames|
    ensures forall i :: 0 <= i < |p.authors| ==> p.authors[i].name == r.authorNames[i]
  {
    Paper(
      title := r.title,
      abstractText := r.summary,
      year := r.publishedYear,
      citationCount := 0,
      authors := seq(|r.authorNames|, i requires 0 <= i < |r.authorNames| => Author(r.authorNames[i])),
      url := r.entryId)
  }

  /** The records for a prefix of the stream, one per result, in order. */
  function ToPapers(results: seq<ArxivResult>): (ps: seq<Paper>)
    ensures |ps| == |results|
    ensures forall i :: 0 <= i < |results| ==> ps[i] == ToPaper(results[i])
  {
    if results == [] then []
    else ToPapers(results[..|results| - 1]) + [ToPaper(results[|results| - 1])]
  }

  /** `search_papers` as a function of the cache directory and the stream;
      `requests` counts calls into the arXiv library (0 on a cache hit). */
  function ArxivSearch(files: map<string, CacheFile>, digest: string -> string, query: string, feed: Feed): (r: SearchResult)
    ensures var key := CacheKey(digest, query, "arxiv");
      && (CacheHit(files, key) ==> r == SearchResult(GetCached(files, key).value, 0, files))
      && (!CacheHit(files, key) ==> r.requests == 1 && r.papers == ToPapers(feed.results))
      && (!CacheHit(files, key) && feed.failsAfter ==> r.files == files)
      && (!CacheHit(files, key) && !feed.failsAfter ==> r.files == files[key := Stored(r.papers)])
  {
    var key := CacheKey(digest, query, "arxiv");
    var cached := GetCached(files, key);
    if cached.Some? && cached.value != [] then SearchResult(cached.value, 0, files)
    else
      var papers := ToPapers(feed.results);
      SearchResult(papers, 1, if feed.failsAfter then files else files[key := Stored(papers)])
  }

  /** Every arXiv record the client returns after a miss has citation count 0. */
  lemma FetchedHaveNoCitations(files: map<string, CacheFile>, digest: string -> string, query: string, feed: Feed)
    requires !CacheHit(files, CacheKey(digest, query, "arxiv"))
    ensures forall p :: p in ArxivSearch(files, digest, query, feed).papers ==> p.citationCount == 0
  {
    var ps := ArxivSearch(files, digest, query, feed).papers;
    forall p | p in ps
      ensures p.citationCount == 0
    {
      var i :| 0 <= i < |ps| && ps[i] == p;
      assert p == ToPaper(feed.results[i]);
    }
  }

  /** A stream that ends normally with results is cached, so the same query
      again is answered from the cache; a broken stream is not cached, so the
      same query is fetched again. */
  lemma CompleteStreamsAreReused(files: map<string, CacheFile>, digest: string -> string, query: string, feed: Feed, next: Feed)
    requires !CacheHit(files, CacheKey(digest, query, "arxiv"))
    ensures var r1 := ArxivSearch(files, digest, query, feed);
      var r2 := ArxivSearch(r1.files, digest, query, next);
      && (!feed.failsAfter && feed.results != [] ==> r2 == SearchResult(r1.papers, 0, r1.files))
      && (feed.failsAfter ==> r2.requests == 1)
  {
    var key := CacheKey(digest, query, "arxiv");
    var r1 := ArxivSearch(files, digest, query, feed);
    if !feed.failsAfter && feed.results != [] {
      assert GetCached(r1.files, key) == Some(r1.papers);
    }
  }

  /** `ArxivAPI`: a client over the shared cache directory. */
  class ArxivAPI {
    const cache: CacheDir

    constructor (cache: CacheDir)
      ensures this.cache == cache
    {
      this.cache := cache;
    }

    /** Answers from the cache when it holds a non-empty list; otherwise turns
        the results into records one by one, caching them only when the stream
        ended normally, and returns what was gathered either way. */
    method SearchPapers(query: string, feed: Feed) returns (papers: seq<Paper>)
      modifies cache
      ensures var r := ArxivSearch(old(cache.files), cache.digest, query, feed);
        papers == r.papers && cache.files == r.files
    {
      var key := CacheKey(cache.digest, query, "arxiv");
      var cached := GetCached(cache.files, key);
      if cached.Some? && cached.value != [] {
        return cached.value;
      }
      papers := [];
      for k := 0 to |feed.results|
        invariant papers == ToPapers(feed.results[..k])
      {
        assert feed.results[..k + 1][..k] == feed.results[..k];
        papers := papers + [ToPaper(feed.results[k])];
      }
      assert feed.results[..|feed.results|] == feed.results;
      if !feed.failsAfter {
        cache.SaveCache(key, papers);
      }
    }
  }
}
