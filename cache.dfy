/** The on-disk result cache shared by the source clients. The directory is
    modelled as a map from cache key to file; hashing is a digest function
    supplied at construction. */
module Cache {
  import opened Records

  /** A cache file: a readable JSON list of papers, or one that fails to load. */
  datatype CacheFile = Stored(papers: seq<Paper>) | Unreadable

  /** What one source client's `search_papers` call did: the papers it returned,
      how many requests it sent to the provider, and the cache directory afterwards. */
  datatype SearchResult = SearchResult(papers: seq<Paper>, requests: nat, files: map<string, CacheFile>)

  /** The string that is hashed into a cache key: the source, an underscore, the query. */
  function KeyString(source: string, query: string): string {
    source + "_" + query
  }

  /** The cache key of a (query, source) pair: the digest of its key string. */
  function CacheKey(digest: string -> string, query: string, source: string): (k: string)
    ensures k == digest(source + ['_'] + query)
  {
    digest(KeyString(source, query))
  }

  /** As long as neither source name contains an underscore, the key string
      determines both the source and the query: two sources never share a key
      string, and one source never maps two queries to one key string. */
  lemma {:induction false} KeyStringInjective(s1: string, q1: string, s2: string, q2: string)
    requires '_' !in s1 && '_' !in s2
    ensures KeyString(s1, q1) == KeyString(s2, q2) <==> s1 == s2 && q1 == q2
  {
    if KeyString(s1, q1) == KeyString(s2, q2) {
      var k := KeyString(s1, q1);
      // The first underscore of the key string ends the source name.
      assert k[|s1|] == '_' && k[|s2|] == '_';
      assert s1 == k[..|s1|] == s2;
      assert q1 == k[|s1| + 1..] == q2;
    }
  }

  /** Two different sources of the client layer never collide on a key string. */
  lemma ProviderKeysDisjoint(q1: string, q2: string)
    ensures KeyString("openalex", q1) != KeyString("arxiv", q2)
  {
    KeyStringInjective("openalex", q1, "arxiv", q2);
  }

  /** `get_cached`: the stored list when the key's file exists and loads;
      a missing or unreadable file gives None. */
  function GetCached(files: map<string, CacheFile>, key: string): (r: Option<seq<Paper>>)
    ensures r.Some? <==> key in files && files[key].Stored?
    ensures r.Some? ==> files[key] == Stored(r.value)
  {
    if key in files && files[key].Stored? then Some(files[key].papers) else None
  }

  /** A lookup short-circuits a search only when it finds a non-empty list. */
  predicate CacheHit(files: map<string, CacheFile>, key: string)
    ensures CacheHit(files, key) <==> key in files && files[key].Stored? && files[key].papers != []
  {
    var cached := GetCached(files, key);
    cached.Some? && cached.value != []
  }

  /** The cache directory of `CachedAPI`: its files and the key digest. */
  class CacheDir {
    var files: map<string, CacheFile>
    const digest: string -> string

    constructor (digest: string -> string, files: map<string, CacheFile>)
      ensures this.digest == digest && this.files == files
    {
      this.digest := digest;
      this.files := files;
    }

    /** `save_cache`: the key's file now holds `data`; every other file is untouched. */
    method SaveCache(key: string, data: seq<Paper>)
      modifies this
      ensures files == old(files)[key := Stored(data)]
      ensures GetCached(files, key) == Some(data)
      ensures forall k :: k != key ==> GetCached(files, k) == GetCached(old(files), k)
    {
      files := files[key := Stored(data)];
    }
  }
}
