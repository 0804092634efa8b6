/** `ResearchToolkit`: routes a search to a source client and keeps, per
    source, how many calls it made and how many of them came back empty. The
    counter dicts keep Python's insertion order, which `order` records. */
module Toolkit {
  import opened Records
  import opened Cache
  import OpenAlex
  import Arxiv

  /** What the providers answer during one search. */
  datatype Network = Network(openalex: OpenAlex.Provider, arxiv: Arxiv.Feed)

  /** The value of a counter dict at a key, 0 when absent. */
  function Get(m: map<string, nat>, k: string): nat {
    if k in m then m[k] else 0
  }

  /** `m[k] = m.get(k, 0) + 1`. */
  function Inc(m: map<string, nat>, k: string): (m': map<string, nat>)
    ensures m'.Keys == m.Keys + {k}
    ensures m'[k] == Get(m, k) + 1
    ensures forall j :: j in m && j != k ==> m'[j] == m[j]
  {
    m[k := Get(m, k) + 1]
  }

  predicate Distinct(order: seq<string>) {
    forall i, j :: 0 <= i < j < |order| ==> order[i] != order[j]
  }

  /** The counters' invariant: `order` lists the keys of `calls` once each,
      every source with a failure count has a call count, and no source has
      more failures than calls. */
  ghost predicate CountersValid(order: seq<string>, calls: map<string, nat>, failures: map<string, nat>) {
    && Distinct(order)
    && (forall s :: s in order <==> s in calls)
    && (forall s :: s in failures ==> s in calls && failures[s] <= calls[s])
  }

  /** The key order after `m[k] = ...`: a new key goes to the end. */
  function InsertKey(order: seq<string>, m: map<string, nat>, k: string): seq<string> {
    if k in m then order else order + [k]
  }

  /** `sum(call_count.values())`, in key order. */
  function SumCalls(order: seq<string>, calls: map<string, nat>): (total: nat)
    requires forall s :: s in order ==> s in calls
    ensures forall s :: s in order ==> calls[s] <= total
    ensures (forall s :: s in order ==> calls[s] == 0) ==> total == 0
  {
    if order == [] then 0
    else SumCalls(order[..|order| - 1], calls) + calls[order[|order| - 1]]
  }

  /** The sum only depends on the counts of the listed keys. */
  lemma {:induction false} SumCallsAgree(order: seq<string>, m1: map<string, nat>, m2: map<string, nat>)
    requires forall s :: s in order ==> s in m1 && s in m2 && m1[s] == m2[s]
    ensures SumCalls(order, m1) == SumCalls(order, m2)
  {
    if order != [] {
      SumCallsAgree(order[..|order| - 1], m1, m2);
    }
  }

  /** Bumping one listed key raises the sum by exactly one. */
  lemma {:induction false} SumCallsIncListed(order: seq<string>, m: map<string, nat>, k: string)
    requires Distinct(order) && k in order
    requires forall s :: s in order ==> s in m
    ensures SumCalls(order, Inc(m, k)) == SumCalls(order, m) + 1
  {
    var init := order[..|order| - 1];
    var last := order[|order| - 1];
    if last == k {
      assert k !in init;
      SumCallsAgree(init, Inc(m, k), m);
    } else {
      assert k in init;
      SumCallsIncListed(init, m, k);
    }
  }

  /** Each call raises `total_calls` by exactly one, for a known or a new source. */
  lemma SumCallsInc(order: seq<string>, calls: map<string, nat>, k: string)
    requires Distinct(order) && forall s :: s in order <==> s in calls
    ensures SumCalls(InsertKey(order, calls, k), Inc(calls, k)) == SumCalls(order, calls) + 1
  {
    if k in calls {
      SumCallsIncListed(order, calls, k);
    } else {
      var order' := order + [k];
      assert order'[..|order'| - 1] == order;
      SumCallsAgree(order, Inc(calls, k), calls);
    }
  }

  /** One `search` call's effect on the counters: the call count of `source`
      rises by one, and its failure count too when the result was empty. */
  lemma RecordPreservesInvariant(order: seq<string>, calls: map<string, nat>, failures: map<string, nat>, source: string, failed: bool)
    requires CountersValid(order, calls, failures)
    ensures CountersValid(InsertKey(order, calls, source), Inc(calls, source), if failed then Inc(failures, source) else failures)
  {
    var order' := InsertKey(order, calls, source);
    if source !in calls {
      assert source !in order;
      forall i, j | 0 <= i < j < |order'|
        ensures order'[i] != order'[j]
      {
        if j == |order| {
          assert order[i] in order;
        }
      }
    }
  }

  /** `max(1, n)`. */
  function AtLeastOne(n: nat): (m: nat)
    ensures m >= 1 && m >= n
    ensures m == 1 || m == n
  {
    if n > 1 then n else 1
  }

  /** `1 - failure_count.get(src, 0) / max(1, call_count.get(src, 1))`. */
  function SuccessRate(calls: map<string, nat>, failures: map<string, nat>, s: string): (rate: real)
    ensures rate <= 1.0
    ensures Get(failures, s) == 0 ==> rate == 1.0
  {
    var c := if s in calls then calls[s] else 1;
    var f := Get(failures, s);
    1.0 - (f as real) / (AtLeastOne(c) as real)
  }

  /** Under the counters' invariant a success rate is a fraction in [0, 1]: it
      is 1 exactly when the source never failed and 0 exactly when every one
      of at least one call failed. */
  lemma SuccessRateBounds(order: seq<string>, calls: map<string, nat>, failures: map<string, nat>, s: string)
    requires CountersValid(order, calls, failures) && s in calls
    ensures 0.0 <= SuccessRate(calls, failures, s) <= 1.0
    ensures SuccessRate(calls, failures, s) == 1.0 <==> Get(failures, s) == 0
    ensures SuccessRate(calls, failures, s) == 0.0 <==> calls[s] >= 1 && Get(failures, s) == calls[s]
  {
    var f := Get(failures, s) as real;
    var d := AtLeastOne(calls[s]) as real;
    assert f <= d;
    assert f / d * d == f;
  }

  /** The statistics `get_stats` reports. */
  datatype Stats = Stats(
    totalCalls: nat,
    bySource: map<string, nat>,
    failures: map<string, nat>,
    successRate: map<string, real>)

  /** The result of one `search` call and the cache directory afterwards: a
      raised client call and an unknown source both give [] and touch nothing. */
  function Dispatch(files: map<string, CacheFile>, digest: string -> string, query: string, source: string, net: Network, raised: bool): (r: SearchResult)
    ensures raised ==> r == SearchResult([], 0, files)
    ensures !raised && source == "openalex" ==> r == OpenAlex.OpenAlexSearch(files, digest, query, net.openalex)
    ensures !raised && source == "arxiv" ==> r == Arxiv.ArxivSearch(files, digest, query, net.arxiv)
    ensures source != "openalex" && source != "arxiv" ==> r == SearchResult([], 0, files)
  {
    if raised then SearchResult([], 0, files)
    else if source == "openalex" then OpenAlex.OpenAlexSearch(files, digest, query, net.openalex)
    else if source == "arxiv" then Arxiv.ArxivSearch(files, digest, query, net.arxiv)
    else SearchResult([], 0, files)
  }

  class ResearchToolkit {
    const dir: CacheDir
    const openalex: OpenAlex.OpenAlexAPI
    const arxiv: Arxiv.ArxivAPI
    var order: seq<string>
    var callCount: map<string, nat>
    var failureCount: map<string, nat>

    /** Both clients use the one cache directory, and the counters are consistent. */
    ghost predicate Valid()
      reads this
    {
      && openalex.cache == dir
      && arxiv.cache == dir
      && CountersValid(order, callCount, failureCount)
    }

    constructor (dir: CacheDir)
      ensures Valid() && this.dir == dir
      ensures order == ["openalex", "arxiv"]
      ensures callCount == map["openalex" := 0, "arxiv" := 0]
      ensures failureCount == map["openalex" := 0, "arxiv" := 0]
    {
      this.dir := dir;
      openalex := new OpenAlex.OpenAlexAPI(dir);
      arxiv := new Arxiv.ArxivAPI(dir);
      order := ["openalex", "arxiv"];
      callCount := map["openalex" := 0, "arxiv" := 0];
      failureCount := map["openalex" := 0, "arxiv" := 0];
    }

    /** Runs the client of the named source against the shared cache directory,
        or gives [] for an unknown source or a call that raised. */
    method RunClient(query: string, source: string, net: Network, raised: bool) returns (papers: seq<Paper>)
      requires openalex.cache == dir && arxiv.cache == dir
      modifies dir
      ensures var r := Dispatch(old(dir.files), dir.digest, query, source, net, raised);
        papers == r.papers && dir.files == r.files
    {
      if raised {
        // The client call raised: counted as a failure.
        papers := [];
      } else if source == "openalex" {
        var requests;
        papers, requests := openalex.SearchPapers(query, net.openalex);
      } else if source == "arxiv" {
        papers := arxiv.SearchPapers(query, net.arxiv);
      } else {
        papers := [];
      }
    }

    /** Counts the call, runs the source's client (or gives [] for an unknown
        source or a raised call), and counts a failure when the result is empty. */
    method Search(query: string, source: string, net: Network, raised: bool) returns (papers: seq<Paper>)
      requires Valid()
      modifies this, dir
      ensures Valid()
      ensures var r := Dispatch(old(dir.files), dir.digest, query, source, net, raised);
        papers == r.papers && dir.files == r.files
      ensures order == InsertKey(old(order), old(callCount), source)
      ensures callCount == Inc(old(callCount), source)
      ensures failureCount == if papers == [] then Inc(old(failureCount), source) else old(failureCount)
      ensures SumCalls(order, callCount) == SumCalls(old(order), old(callCount)) + 1
    {
      SumCallsInc(order, callCount, source);
      order := InsertKey(order, callCount, source);
      callCount := Inc(callCount, source);
      papers := RunClient(query, source, net, raised);
      RecordPreservesInvariant(old(order), old(callCount), failureCount, source, papers == []);
      if papers == [] {
        failureCount := Inc(failureCount, source);
      }
    }

    /** `get_stats`: the total, copies of both counter dicts, and a success
        rate in [0, 1] for exactly the sources that have a call count. */
    function GetStats(): (st: Stats)
      reads this
      requires Valid()
      ensures st.bySource == callCount && st.failures == failureCount
      ensures st.successRate.Keys == callCount.Keys
      ensures forall s :: s in st.successRate ==> 0.0 <= st.successRate[s] <= 1.0
      ensures forall s :: s in callCount ==>
        st.successRate[s] == 1.0 - (Get(failureCount, s) as real) / (AtLeastOne(callCount[s]) as real)
      ensures st.totalCalls == SumCalls(order, callCount)
    {
      var rates := map s | s in callCount :: SuccessRate(callCount, failureCount, s);
      assert forall s :: s in rates ==> 0.0 <= rates[s] <= 1.0 by {
        forall s | s in rates
          ensures 0.0 <= rates[s] <= 1.0
        {
          SuccessRateBounds(order, callCount, failureCount, s);
        }
      }
      Stats(SumCalls(order, callCount), callCount, failureCount, rates)
    }
  }
}
