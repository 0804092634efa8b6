# research-assistant-rl: the client layer and the coordinator, in Dafny

This project models two pieces of research-assistant-rl: the resilient
paper-search client layer (`src/tools.py`) and the coordinator that
allocates research tasks to the learning agents and runs one search with a
fallback (`src/coordinator.py`). It proves what these promise: cache hits,
a bounded retry loop, the abstract rebuild, normalisation, the call
counters, the voting rule, the fallback chain and the reward rule.

Files and modules:

- `records.dfy` (`Records`): the normalised `Paper` record and `Option`,
  plus `MapAll`, the "map in order, stop at the first failure" loop shape
  shared by the clients.
- `cache.dfy` (`Cache`): `CachedAPI`'s cache. The directory is a map from
  key to file, and a file is either a stored list or unreadable. The key is
  an opaque digest of the string `source + "_" + query`. `CacheDir` is the
  directory as an object whose `SaveCache` updates it in place.
- `inverted_index.dfy` (`InvertedIndex`): rebuilding an OpenAlex abstract
  from its inverted index. `RebuildAbstract` fills an array in place, as
  the source does. It is proved equal to `Rebuild`, a definition by "last
  writer wins". Python's negative list indices and the `ValueError` and
  `IndexError` cases are modelled.
- `openalex.dfy` (`OpenAlex`): normalising works into records, the
  three-attempt retry loop, and the `OpenAlexAPI` client. The provider is
  the list of answers (status and body, timeout, or other exception) that
  it gives to successive requests.
- `arxiv.dfy` (`Arxiv`): the arXiv client. The result stream is the list
  of results it yields, plus a flag that says whether it then raises.
- `toolkit.dfy` (`Toolkit`): `ResearchToolkit`, with its per-source call
  and failure counters in dict insertion order, and `get_stats`.
- `tally.dfy` (`Tally`): `Counter(...).most_common(1)[0][0]` over a list
  of ballots.
- `coordinator.dfy` (`Coordinator`): `EnhancedCoordinator`. The agents,
  the environment and the synthesizer are collaborators whose answers are
  given as a value (`Collaborators`). `Research` is the whole of
  `research_with_fallback` as a function. The class method
  `ResearchWithFallback` runs it step by step and is proved equal to it.

Behaviour of the code that the model keeps:

- After warm-up, any task difficulty other than `easy` or `hard` gets both
  agents, whatever its name.
- A cache entry answers the search only when it is a non-empty list. A
  cached `[]` is fetched again.
- An undecodable 200 body, or an abstract whose rebuild raises, falls into
  the generic `except Exception`, so it is retried like a timeout or a 5xx.
- A 429 answer sleeps and continues even on the last attempt. The loop
  then ends with `[]`.
- A 200 answer with an empty `results` list is cached as `[]`.

## Model

| member | source | states |
|---|---|---|
| Cache.CacheKey | research-assistant-rl/src/tools.py:19-22 | the key of a query for a source is the digest of `source + "_" + query` |
| Cache.KeyStringInjective | research-assistant-rl/src/tools.py:19-22 | when neither source name contains `_`, two key strings are equal exactly when both the sources and the queries are equal |
| Cache.ProviderKeysDisjoint | research-assistant-rl/src/tools.py:19-22 | an OpenAlex key string never equals an arXiv key string, whatever the queries |
| Cache.GetCached | research-assistant-rl/src/tools.py:24-33 | a list comes back exactly when the key's file exists and loads, and it is the stored list; a missing or unreadable file gives None |
| Cache.CacheHit | research-assistant-rl/src/tools.py:73-75 | a search is answered from the cache exactly when the key's file exists, loads and holds a non-empty list |
| Cache.CacheDir.SaveCache | research-assistant-rl/src/tools.py:35-42 | the key now reads back as the saved list, and every other key reads back as before |
| Records.MapAllSucceeds | research-assistant-rl/src/tools.py:94-115 | a stop-at-first-failure loop succeeds exactly when every element succeeds |
| Records.MapAllElements | research-assistant-rl/src/tools.py:94-115 | on success, the i-th output is the result for the i-th input, so order is kept and nothing is dropped |
| Records.MapAllExtend | research-assistant-rl/src/tools.py:95-115 | handling one more element appends its result to the output of the prefix |
| InvertedIndex.MaxOf | research-assistant-rl/src/tools.py:101 | `max` of a non-empty list is an element of it that no element exceeds |
| InvertedIndex.MaxPosition | research-assistant-rl/src/tools.py:101 | the outer `max` is a position some word lists, and no listed position exceeds it |
| InvertedIndex.Words | research-assistant-rl/src/tools.py:101-104 | the word array has max+1 elements |
| InvertedIndex.JoinSpaces | research-assistant-rl/src/tools.py:105 | the joined string starts with the first word, followed by a space when there are more words |
| InvertedIndex.Rebuild | research-assistant-rl/src/tools.py:98-105 | the rebuild succeeds exactly when the index is non-empty, every position list is non-empty and every position is a valid Python index into a list of max+1 words; the result is then the word array joined with single spaces |
| InvertedIndex.WriteWord | research-assistant-rl/src/tools.py:103-104 | writes the word into every element one of its positions designates (negative positions count from the end) and leaves the others; fails exactly when some position is out of range |
| InvertedIndex.RebuildAbstract | research-assistant-rl/src/tools.py:98-105 | filling the word array in place, word by word and position by position, then joining with single spaces, gives `Rebuild`, including every failure case |
| InvertedIndex.WordAtWritten | research-assistant-rl/src/tools.py:102-104 | an element holds the word of the last entry that writes it |
| InvertedIndex.WordAtUnwritten | research-assistant-rl/src/tools.py:101-104 | an element no entry writes stays `''` |
| InvertedIndex.WordAtFromIndex | research-assistant-rl/src/tools.py:101-104 | every element of the word array is `''` or one of the index's words |
| InvertedIndex.SplitJoin | research-assistant-rl/src/tools.py:105 | splitting on single spaces undoes the join for words without spaces |
| InvertedIndex.RebuiltAbstractWords | research-assistant-rl/src/tools.py:101-105 | a rebuilt abstract holds max+1 words (at least one), and when no word has a space, splitting it recovers the word array exactly |
| InvertedIndex.RebuildExample | research-assistant-rl/src/tools.py:98-105 | `{"a": [0, 2], "b": [1]}` rebuilds to `"a b a"` |
| OpenAlex.PerPage | research-assistant-rl/src/tools.py:77-81 | `per_page` is the caller's limit capped at 200: it is one of the two and exceeds neither |
| OpenAlex.AuthorName | research-assistant-rl/src/tools.py:112 | an authorship without an author, or whose author has no display name, is named 'Unknown'; otherwise it takes the display name |
| OpenAlex.Normalize | research-assistant-rl/src/tools.py:107-115 | the defaults: 'No title'; the rebuilt abstract unless it is missing or empty, then `display_name`, then 'No abstract available'; year and citation count 0; url ''; one author per authorship, named 'Unknown' when unnamed |
| OpenAlex.WorkPaper | research-assistant-rl/src/tools.py:97-115 | a work fails exactly when it has an index that cannot be rebuilt; otherwise its record is normalised with the rebuilt abstract, or with none when it has no index |
| OpenAlex.NormalizeAll | research-assistant-rl/src/tools.py:94-116 | a successful normalisation gives one record per work |
| OpenAlex.NormalizeAllRecords | research-assistant-rl/src/tools.py:94-116 | the list of works normalises exactly when each work does, and then the i-th record is the i-th work's |
| OpenAlex.NormalizeWork | research-assistant-rl/src/tools.py:96-115 | one pass of the work loop: rebuild the index when there is one, then normalise, giving exactly `WorkPaper` |
| OpenAlex.NormalizeResults | research-assistant-rl/src/tools.py:94-116 | the appending loop over `results` produces exactly `NormalizeAll` and stops at the first work that raises |
| OpenAlex.Transient | research-assistant-rl/src/tools.py:126-147 | a transient failure retries exactly when attempts remain, and otherwise finishes with `[]` and no caching |
| OpenAlex.Classify | research-assistant-rl/src/tools.py:89-147 | a normalisable 200 finishes and saves its records; 429 retries after 5 s; another non-5xx status finishes with `[]` at once; a timeout, a 5xx or an exception is transient, and so is a 200 whose body cannot be decoded or whose works cannot be normalised; only a 200 ever saves |
| OpenAlex.HandleAttempt | research-assistant-rl/src/tools.py:87-147 | the loop body for one answer decides exactly as `Classify` does |
| OpenAlex.RetryFrom | research-assistant-rl/src/tools.py:84-149 | at most 3 requests and at least one; giving up returns `[]` unsaved; a saved result is the normalised answer to the last request; every earlier request was retried; the loop stops early only on a finishing answer, and then returns exactly that answer's papers and save decision; a last answer that asks for a retry means `[]`, unsaved, after all three requests |
| OpenAlex.OpenAlexSearch | research-assistant-rl/src/tools.py:71-149 | a cache hit returns the cached list with no request and no change; a miss returns the retry loop's papers after its requests (1 to 3), and stores them under this key exactly when the loop saves |
| OpenAlex.SearchIdempotent | research-assistant-rl/src/tools.py:71-119 | after a search that returned papers, the same query returns the same papers with no request and no change to the cache, whatever the provider answers |
| OpenAlex.PermanentErrorNotRetried | research-assistant-rl/src/tools.py:132-134 | a non-429 client error on the first request gives `[]` after one request, with nothing saved |
| OpenAlex.TransientFailuresGiveUp | research-assistant-rl/src/tools.py:126-147 | timeouts, 5xx answers or exceptions on every attempt: three requests, then `[]` with nothing saved |
| OpenAlex.RateLimitedToTheEnd | research-assistant-rl/src/tools.py:121-124 | 429 on every attempt, including the last, uses all three requests and ends with `[]` |
| OpenAlex.RecoversAfterTransient | research-assistant-rl/src/tools.py:89-119 | a transient failure followed by a usable 200 returns and saves the second answer's records after two requests |
| OpenAlex.GiveUpIsEmpty | research-assistant-rl/src/tools.py:117-149 | on a miss, a search that leaves the cache unchanged returned `[]` |
| OpenAlex.OpenAlexAPI.SearchPapers | research-assistant-rl/src/tools.py:59-149 | the client method (cache check, retry loop, save) returns exactly the papers and request count of `OpenAlexSearch`, and leaves the cache as it says |
| Arxiv.ToPaper | research-assistant-rl/src/tools.py:177-184 | an arXiv record takes title, summary, year, author names and entry id from the result, with citation count 0 |
| Arxiv.ToPapers | research-assistant-rl/src/tools.py:176-184 | one record per result yielded, in order |
| Arxiv.ArxivSearch | research-assistant-rl/src/tools.py:163-191 | a hit returns the cached list with no request; a miss returns the records of every result yielded, and caches them only when the stream ended normally |
| Arxiv.FetchedHaveNoCitations | research-assistant-rl/src/tools.py:177-184 | every record fetched from arXiv has citation count 0 |
| Arxiv.CompleteStreamsAreReused | research-assistant-rl/src/tools.py:174-191 | a complete non-empty result is answered from the cache next time; a broken stream is fetched again |
| Arxiv.ArxivAPI.SearchPapers | research-assistant-rl/src/tools.py:159-191 | the appending loop returns exactly `ArxivSearch`'s papers and leaves the cache as it says |
| Toolkit.Inc | research-assistant-rl/src/tools.py:218 | `m[k] = m.get(k, 0) + 1` adds k as a key, raises its count by one and changes no other key |
| Toolkit.SumCalls | research-assistant-rl/src/tools.py:242 | `total_calls` is at least every listed source's call count, and 0 when every listed count is 0 |
| Toolkit.SumCallsAgree | research-assistant-rl/src/tools.py:242 | `total_calls` depends only on the counts of the listed sources |
| Toolkit.SumCallsIncListed | research-assistant-rl/src/tools.py:218-242 | bumping one listed source raises `total_calls` by exactly one |
| Toolkit.SumCallsInc | research-assistant-rl/src/tools.py:218-242 | every call, for a known or a new source, raises `total_calls` by exactly one |
| Toolkit.RecordPreservesInvariant | research-assistant-rl/src/tools.py:218-237 | one call's counter updates keep the keys listed once each and keep failures at most calls for every source |
| Toolkit.AtLeastOne | research-assistant-rl/src/tools.py:246 | the divisor `max(1, n)` is at least 1 and at least n, and is either 1 or n |
| Toolkit.SuccessRate | research-assistant-rl/src/tools.py:246 | a success rate is at most 1, and exactly 1 for a source with no failures |
| Toolkit.SuccessRateBounds | research-assistant-rl/src/tools.py:245-248 | under the counter invariant a success rate lies in [0, 1]; it is 1 exactly when the source never failed, and 0 exactly when it was called and every call failed |
| Toolkit.Dispatch | research-assistant-rl/src/tools.py:220-237 | a raised call and an unknown source give `[]` and leave the cache alone; otherwise the result is that source's client's |
| Toolkit.ResearchToolkit.constructor | research-assistant-rl/src/tools.py:200-204 | both counters start at 0 for 'openalex' and 'arxiv', in that order |
| Toolkit.ResearchToolkit.RunClient | research-assistant-rl/src/tools.py:220-228 | routes the search to the named client, or gives `[]`, exactly as `Dispatch` |
| Toolkit.ResearchToolkit.Search | research-assistant-rl/src/tools.py:206-237 | the call count of the source rises by one and its failure count rises exactly when the result is empty; no other counter changes; a new source goes last in key order; the counter invariant is kept; `total_calls` rises by one |
| Toolkit.ResearchToolkit.GetStats | research-assistant-rl/src/tools.py:239-249 | copies of both counters; a success rate for exactly the sources with a call count, each `1 - failures / max(1, calls)` and in [0, 1]; and the total of the call counts |
| Tally.FirstIndex | research-assistant-rl/src/coordinator.py:67 | the position of a value's first ballot: it holds the value and no earlier ballot does |
| Tally.FirstIndexAppend | research-assistant-rl/src/coordinator.py:67 | one more ballot moves no value's first position, and a new value first appears at the end |
| Tally.CountAbsent | research-assistant-rl/src/coordinator.py:67 | a value on no ballot has count 0 |
| Tally.Keys | research-assistant-rl/src/coordinator.py:67 | the counter's keys are exactly the ballot values, each once, in order of first appearance |
| Tally.FirstMaxIndex | research-assistant-rl/src/coordinator.py:68 | the chosen key has the highest count, and every key before it has a strictly lower count |
| Tally.MostCommon | research-assistant-rl/src/coordinator.py:67-68 | the winner is a ballot value, no value has more votes, and among equally frequent values it is the one that appears first |
| Tally.CountTwo | research-assistant-rl/src/coordinator.py:67 | with two ballots, each counts once for its own value |
| Tally.FirstOfTwoWins | research-assistant-rl/src/coordinator.py:67-68 | with two ballots the first always wins: unanimously, or 1-1 through the first-counted tie-break |
| Coordinator.Allocate | research-assistant-rl/src/coordinator.py:27-49 | both agents during the first 50 episodes; after that, `ucb_agent` exactly for 'easy', `q_agent` exactly for 'hard', and both otherwise |
| Coordinator.Record | research-assistant-rl/src/coordinator.py:34-48 | the chosen bucket rises by one and every other bucket is unchanged |
| Coordinator.RecordCountsOneTask | research-assistant-rl/src/coordinator.py:21-48 | each allocation counts exactly one more task, and no bucket ever decreases |
| Coordinator.AgentVoting | research-assistant-rl/src/coordinator.py:51-70 | the ballots are the two agents' sources, the strategy is the q_agent's, and the winner is always the q_agent's source |
| Coordinator.Select | research-assistant-rl/src/coordinator.py:86-96 | the ucb_agent alone uses the default strategy 'specific' with its own source; the q_agent alone uses its own choice; with both, the q_agent's source and strategy prevail |
| Coordinator.Alternate | research-assistant-rl/src/coordinator.py:111 | the fallback source differs from the primary and is 'arxiv' or 'openalex'; it is 'arxiv' exactly for 'openalex' |
| Coordinator.AlternatePairs | research-assistant-rl/src/coordinator.py:111 | 'openalex' and 'arxiv' are each other's fallback |
| Coordinator.Failed | research-assistant-rl/src/coordinator.py:106 | a search fails exactly when it did not return a non-empty list |
| Coordinator.Retrieve | research-assistant-rl/src/coordinator.py:99-119 | one or two sources tried, the primary first; a second exactly when the primary raised or found nothing; a returning backup supplies papers, cost and source; a raising backup gives `[]` and 5.0 with the primary source kept |
| Coordinator.Searches | research-assistant-rl/src/coordinator.py:103-115 | one search per source tried, in order, all with the selected strategy |
| Coordinator.Research | research-assistant-rl/src/coordinator.py:72-151 | the reported allocation is `allocate_task`'s, and `papers_count` is the number of papers returned |
| Coordinator.ResearchSearches | research-assistant-rl/src/coordinator.py:87-150 | 'specific' when the ucb_agent works alone, the q_agent's strategy otherwise; the first source is the ucb_agent's when it works alone and the q_agent's otherwise; 1 or 2 searches matching `sources_tried`; `fallback_used` exactly when the primary failed, exactly when two sources were tried; the second is the alternate of the first |
| Coordinator.TotalReward | research-assistant-rl/src/coordinator.py:124-130 | found papers earn the environment's reward plus 2 × quality; no papers earn -10 |
| Coordinator.ResearchReward | research-assistant-rl/src/coordinator.py:125-130 | found papers earn the environment's reward plus 2 × synthesis quality; no papers earn exactly -10 |
| Coordinator.ResearchUpdates | research-assistant-rl/src/coordinator.py:132-137 | the q_agent is updated exactly for 'q_agent' or 'both', with the state as next state; the ucb_agent exactly for 'ucb_agent' or 'both'; both with the final source and the reward |
| Coordinator.AgentsAskedOnce | research-assistant-rl/src/coordinator.py:87-96 | each agent that takes part is asked exactly once, the q_agent first |
| Coordinator.FallbackOutcome | research-assistant-rl/src/coordinator.py:99-130 | the primary's papers and cost when it found papers; else a backup that returned, even empty, supplies them and becomes the source; else `[]`, 5.0, the primary source and the penalty |
| Coordinator.HardTaskBothEmpty | research-assistant-rl/src/coordinator.py:42-137 | a hard task after warm-up whose OpenAlex and arXiv searches both find nothing ends with no papers, -10, both sources tried and no ucb_agent update |
| Coordinator.EasyTaskFound | research-assistant-rl/src/coordinator.py:38-137 | an easy task after warm-up with three arXiv papers of quality 0.8 earns the reward plus 1.6, and only the ucb_agent is updated |
| Coordinator.SelectAgents | research-assistant-rl/src/coordinator.py:86-96 | the branch on the allocation selects exactly as `Select` |
| Coordinator.SearchWithFallback | research-assistant-rl/src/coordinator.py:98-119 | the try/except fallback chain gives exactly `Retrieve`, and records one search per source tried |
| Coordinator.EnhancedCoordinator.constructor | research-assistant-rl/src/coordinator.py:21-25 | all three allocation buckets start at 0 |
| Coordinator.EnhancedCoordinator.AllocateTask | research-assistant-rl/src/coordinator.py:27-49 | returns `Allocate`'s decision and counts it in its bucket |
| Coordinator.EnhancedCoordinator.ResearchWithFallback | research-assistant-rl/src/coordinator.py:72-151 | running the task step by step gives exactly `Research`'s papers, reward, diagnostics and agent updates, and counts its allocation once in the history |

## Left out

- HTTP, the `requests` session, the `arxiv` client library and JSON
  decoding. The OpenAlex provider is a function from request number to
  answer (status and body, timeout, or other exception). An arXiv result
  stream is the results it yields plus whether it then raises.
- JSON `null` and wrongly typed fields. An absent list field is modelled as
  the empty list, and an absent, null or empty inverted index as the empty
  index, because the source's `if` treats these alike.
- The inverted index is an ordered list of (word, positions) entries in the
  provider's key order. Duplicate JSON keys are not modelled.
- md5 is an opaque digest function of the key string.
- The filesystem: `os.makedirs`, and a `save_cache` write that fails (the
  source ignores it). A write is modelled as always landing in the map.
- `time.sleep` and the `@rate_limit` decorator (`src/utils` is not part of
  this model). The backoff durations are recorded in the `Retry` step, and
  an exception from the decorator is the `raised` parameter of
  `ResearchToolkit.Search`.
- The `limit` argument of the arXiv search (`max_results`) is not
  modelled: the stream is already the results the library yields.
  `PerPage` models OpenAlex's `per_page`, which only shapes the request.
- The learning agents (`src/agents`), the synthesizer (`src/synthesis`),
  `get_state` and the environment's search and reward. These are
  collaborators whose answers are given. The agents' update calls are
  recorded as data, not performed.
- Floating point: rewards, costs, qualities and success rates are `real`,
  with no rounding.
- `print` diagnostics, and `main.py`, which only launches processes.
- Coordinator.Research: its own contract states only the allocation and the
  paper count. The search, reward and update facts are the lemmas
  `ResearchSearches`, `ResearchReward`, `ResearchUpdates` and
  `FallbackOutcome`.
