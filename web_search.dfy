/**
 * The deterministic parts of the legal web search: the cache file name
 * derived from a search key, the list of queries built for a provider, and
 * the combination of the per-query hit lists into one list without
 * duplicate URLs. The searches themselves are a function parameter.
 */
module WebSearch {
  import opened Text
  import opened Py
  import opened Sequences

  /** A search hit as the result parser builds it: string fields keyed by name (`title`, `url`, `snippet`, `query`). */
  type SearchResult = map<string, string>

  /** `result.get(key, '')` */
  function Field(r: SearchResult, key: string): (v: string)
    ensures key in r ==> v == r[key]
    ensures key !in r ==> v == ""
  {
    if key in r then r[key] else ""
  }

  function ResultUrl(r: SearchResult): string
  {
    Field(r, "url")
  }

  predicate HasUrl(r: SearchResult)
  {
    ResultUrl(r) != ""
  }

  // ----- Cache file names -----

  /** Characters a cache key keeps: alphanumerics, `-` and `_`. */
  predicate IsKeyChar(c: char)
  {
    IsAlnum(c) || c == '-' || c == '_'
  }

  /** The sanitised key: every other character becomes `_`. */
  function SafeKey(key: string): (r: string)
    ensures |r| == |key|
    ensures forall i :: 0 <= i < |r| ==> IsKeyChar(r[i])
    ensures forall i :: 0 <= i < |key| && IsKeyChar(key[i]) ==> r[i] == key[i]
    ensures forall i :: 0 <= i < |key| && !IsKeyChar(key[i]) ==> r[i] == '_'
  {
    seq(|key|, i requires 0 <= i < |key| => if IsKeyChar(key[i]) then key[i] else '_')
  }

  /** The cache file name for a search key, inside the cache directory. */
  function CacheFileName(key: string): string
  {
    "search_" + Take(SafeKey(key), 50) + ".json"
  }

  /**
   * The file name is `search_`, then the first min(50, |key|) characters of
   * the sanitised key, then `.json`; everything between prefix and suffix is
   * a key character.
   */
  lemma CacheFileNameShape(key: string)
    ensures var name := CacheFileName(key);
      var n := if |key| <= 50 then |key| else 50;
      |name| == 12 + n
      && name[..7] == "search_" && name[7 + n..] == ".json"
      && name[7..7 + n] == SafeKey(key)[..n]
      && forall i :: 7 <= i < 7 + n ==> IsKeyChar(name[i])
  {
    var n := if |key| <= 50 then |key| else 50;
    var name := CacheFileName(key);
    var safe := Take(SafeKey(key), 50);
    assert safe == SafeKey(key)[..n];
    assert name[7..7 + n] == safe;
    forall i | 7 <= i < 7 + n
      ensures IsKeyChar(name[i])
    {
      assert name[i] == safe[i - 7] == SafeKey(key)[i - 7];
    }
  }

  /** Sanitising is idempotent, so a sanitised key names the same cache file as the original. */
  lemma SafeKeyIdempotent(key: string)
    ensures SafeKey(SafeKey(key)) == SafeKey(key)
    ensures CacheFileName(SafeKey(key)) == CacheFileName(key)
  {
  }

  /** The search key: provider name, NPI and specialty (empty when missing), joined by `_`. */
  function SearchKey(providerName: string, npi: string, specialty: Option<string>): string
  {
    providerName + "_" + npi + "_" + OrDefault(specialty, "")
  }

  // ----- Queries -----

  function Quoted(name: string): string
  {
    "\"" + name + "\""
  }

  function NameQueries(name: string): seq<string>
  {
    [Quoted(name) + " convicted healthcare fraud", Quoted(name) + " lawsuit healthcare", Quoted(name) + " court judgment"]
  }

  function SpecialtyQueries(name: string, specialty: string): seq<string>
  {
    [Quoted(name) + " " + specialty + " malpractice", Quoted(name) + " " + specialty + " criminal"]
  }

  function NpiQueries(npi: string): seq<string>
  {
    ["NPI " + npi + " legal court", "NPI " + npi + " lawsuit judgment", "National Provider Identifier " + npi + " fraud"]
  }

  function LocationQueries(name: string, location: string): seq<string>
  {
    [Quoted(name) + " " + location + " convicted", Quoted(name) + " " + location + " lawsuit"]
  }

  function PendingQueries(name: string): seq<string>
  {
    [Quoted(name) + " pending charges healthcare", Quoted(name) + " alleged fraud"]
  }

  /** The queries in strategy order: name, specialty (if given), NPI, location (if given), pending cases. */
  function SearchQueries(providerName: string, npi: string, specialty: Option<string>, location: Option<string>): seq<string>
  {
    var name := Strip(providerName);
    NameQueries(name)
    + (if Filled(specialty) then SpecialtyQueries(name, specialty.value) else [])
    + NpiQueries(npi)
    + (if Filled(location) then LocationQueries(name, location.value) else [])
    + PendingQueries(name)
  }

  method BuildSearchQueries(providerName: string, npi: string, specialty: Option<string>, location: Option<string>)
    returns (queries: seq<string>)
    ensures queries == SearchQueries(providerName, npi, specialty, location)
  {
    queries := [];
    var cleanName := Strip(providerName);
    queries := queries + [Quoted(cleanName) + " convicted healthcare fraud"];
    queries := queries + [Quoted(cleanName) + " lawsuit healthcare"];
    queries := queries + [Quoted(cleanName) + " court judgment"];
    assert queries == NameQueries(cleanName);
    ghost var expected := NameQueries(cleanName);
    if Filled(specialty) {
      queries := queries + [Quoted(cleanName) + " " + specialty.value + " malpractice"];
      queries := queries + [Quoted(cleanName) + " " + specialty.value + " criminal"];
      expected := expected + SpecialtyQueries(cleanName, specialty.value);
    }
    assert queries == expected;
    queries := queries + ["NPI " + npi + " legal court"];
    queries := queries + ["NPI " + npi + " lawsuit judgment"];
    queries := queries + ["National Provider Identifier " + npi + " fraud"];
    expected := expected + NpiQueries(npi);
    assert queries == expected;
    if Filled(location) {
      queries := queries + [Quoted(cleanName) + " " + location.value + " convicted"];
      queries := queries + [Quoted(cleanName) + " " + location.value + " lawsuit"];
      expected := expected + LocationQueries(cleanName, location.value);
    }
    assert queries == expected;
    queries := queries + [Quoted(cleanName) + " pending charges healthcare"];
    queries := queries + [Quoted(cleanName) + " alleged fraud"];
    expected := expected + PendingQueries(cleanName);
    assert queries == expected;
  }

  /** There are 8 queries, plus 2 with a specialty and 2 with a location. */
  lemma QueryCount(providerName: string, npi: string, specialty: Option<string>, location: Option<string>)
    ensures |SearchQueries(providerName, npi, specialty, location)|
      == 8 + (if Filled(specialty) then 2 else 0) + (if Filled(location) then 2 else 0)
  {
  }

  /**
   * Only the first five queries are run: the three name queries, then the
   * two specialty queries when a specialty is given, otherwise the first two
   * NPI queries. Location and pending-case queries are never run.
   */
  lemma FirstFiveQueries(providerName: string, npi: string, specialty: Option<string>, location: Option<string>)
    ensures var name := Strip(providerName);
      SearchQueries(providerName, npi, specialty, location)[..5]
      == NameQueries(name) + (if Filled(specialty) then SpecialtyQueries(name, specialty.value) else NpiQueries(npi)[..2])
  {
    var name := Strip(providerName);
    var q := SearchQueries(providerName, npi, specialty, location);
    var head := NameQueries(name) + (if Filled(specialty) then SpecialtyQueries(name, specialty.value) else NpiQueries(npi)[..2]);
    assert |head| == 5;
    forall i | 0 <= i < 5
      ensures q[i] == head[i]
    {
    }
  }

  // ----- Combining results -----

  /** The hit lists of the searches that did not raise, concatenated in query order. */
  function Flatten(outcomes: seq<Outcome<seq<SearchResult>>>): seq<SearchResult>
    decreases |outcomes|
  {
    if |outcomes| == 0 then []
    else
      var last := outcomes[|outcomes| - 1];
      Flatten(outcomes[..|outcomes| - 1]) + (if last.Returned? then last.value else [])
  }

  /** The number of searches that did not raise. */
  function CountReturned(outcomes: seq<Outcome<seq<SearchResult>>>): (n: nat)
    ensures n <= |outcomes|
    decreases |outcomes|
  {
    if |outcomes| == 0 then 0
    else CountReturned(outcomes[..|outcomes| - 1]) + (if outcomes[|outcomes| - 1].Returned? then 1 else 0)
  }

  /** The first hit for each non-empty URL, in order. */
  function UniqueByUrl(results: seq<SearchResult>): seq<SearchResult>
  {
    KeepFirst(results, ResultUrl, HasUrl)
  }

  method DeduplicateByUrl(allResults: seq<SearchResult>) returns (uniqueResults: seq<SearchResult>)
    ensures uniqueResults == UniqueByUrl(allResults)
  {
    var seenUrls: set<string> := {};
    uniqueResults := [];
    var i := 0;
    while i < |allResults|
      invariant 0 <= i <= |allResults|
      invariant uniqueResults == KeepFirst(allResults[..i], ResultUrl, HasUrl)
      invariant seenUrls == Keys(uniqueResults, ResultUrl)
    {
      var result := allResults[i];
      assert allResults[..i + 1][..i] == allResults[..i];
      var url := Field(result, "url");
      if url != "" && url !in seenUrls {
        KeysAppend(uniqueResults, result, ResultUrl);
        seenUrls := seenUrls + {url};
        uniqueResults := uniqueResults + [result];
      }
      i := i + 1;
    }
    assert allResults[..|allResults|] == allResults;
  }

  /** What a search returns: the unique hits, the number of searches that ran, and the provider when searching was enabled. */
  datatype SearchResponse = SearchResponse(
    legalResults: seq<SearchResult>,
    searchesPerformed: nat,
    providerName: Option<string>,
    npi: Option<string>)

  /** `queries[:5]` */
  function FirstFive(queries: seq<string>): (r: seq<string>)
    ensures |r| == if |queries| <= 5 then |queries| else 5
    ensures forall i :: 0 <= i < |r| ==> r[i] == queries[i]
  {
    if |queries| <= 5 then queries else queries[..5]
  }

  /** The outcomes of running each of `queries` through `perform`. */
  function RunAll(queries: seq<string>, perform: string -> Outcome<seq<SearchResult>>): (r: seq<Outcome<seq<SearchResult>>>)
    ensures |r| == |queries|
    ensures forall i :: 0 <= i < |queries| ==> r[i] == perform(queries[i])
  {
    seq(|queries|, i requires 0 <= i < |queries| => perform(queries[i]))
  }

  /** The response for a provider, given whether searching is enabled and what each query returns. */
  function LegalSearch(enabled: bool, providerName: string, npi: string, specialty: Option<string>, location: Option<string>,
                       perform: string -> Outcome<seq<SearchResult>>): SearchResponse
  {
    if !enabled then SearchResponse([], 0, None, None)
    else
      var queries := SearchQueries(providerName, npi, specialty, location);
      var outcomes := RunAll(FirstFive(queries), perform);
      SearchResponse(UniqueByUrl(Flatten(outcomes)), CountReturned(outcomes), Some(providerName), Some(npi))
  }

  method SearchProviderLegalInfo(enabled: bool, providerName: string, npi: string, specialty: Option<string>,
                                 location: Option<string>, perform: string -> Outcome<seq<SearchResult>>)
    returns (response: SearchResponse)
    ensures response == LegalSearch(enabled, providerName, npi, specialty, location, perform)
  {
    if !enabled {
      return SearchResponse([], 0, None, None);
    }
    var queries := BuildSearchQueries(providerName, npi, specialty, location);
    QueryCount(providerName, npi, specialty, location);
    var batch := FirstFive(queries);
    var searchResults := RunBatch(batch, perform);
    var allResults := CollectReturned(searchResults);
    var uniqueResults := DeduplicateByUrl(allResults);
    response := SearchResponse(uniqueResults, CountReturned(searchResults), Some(providerName), Some(npi));
  }

  /** The search loop: one outcome per query, in order. */
  method RunBatch(batch: seq<string>, perform: string -> Outcome<seq<SearchResult>>)
    returns (searchResults: seq<Outcome<seq<SearchResult>>>)
    ensures searchResults == RunAll(batch, perform)
  {
    searchResults := [];
    var i := 0;
    while i < |batch|
      invariant 0 <= i <= |batch|
      invariant searchResults == RunAll(batch[..i], perform)
    {
      searchResults := searchResults + [perform(batch[i])];
      i := i + 1;
    }
    assert batch[..|batch|] == batch;
  }

  /** The gathering loop: the hits of every search that returned, in order; raised searches add nothing. */
  method CollectReturned(searchResults: seq<Outcome<seq<SearchResult>>>) returns (allResults: seq<SearchResult>)
    ensures allResults == Flatten(searchResults)
  {
    allResults := [];
    var i := 0;
    while i < |searchResults|
      invariant 0 <= i <= |searchResults|
      invariant allResults == Flatten(searchResults[..i])
    {
      assert searchResults[..i + 1][..i] == searchResults[..i];
      var result := searchResults[i];
      if result.Returned? {
        allResults := allResults + result.value;
      }
      i := i + 1;
    }
    assert searchResults[..|searchResults|] == searchResults;
  }

  /** A disabled service returns no hits and reports no searches. */
  lemma DisabledSearchIsEmpty(providerName: string, npi: string, specialty: Option<string>, location: Option<string>,
                              perform: string -> Outcome<seq<SearchResult>>)
    ensures LegalSearch(false, providerName, npi, specialty, location, perform).legalResults == []
    ensures LegalSearch(false, providerName, npi, specialty, location, perform).searchesPerformed == 0
  {
  }

  /** At most five searches run, and each of them counts unless it raised. */
  lemma SearchesPerformedBound(providerName: string, npi: string, specialty: Option<string>, location: Option<string>,
                               perform: string -> Outcome<seq<SearchResult>>)
    ensures var r := LegalSearch(true, providerName, npi, specialty, location, perform);
      r.searchesPerformed <= 5
      && ((forall q :: perform(q).Returned?) ==> r.searchesPerformed == 5)
  {
    QueryCount(providerName, npi, specialty, location);
    var outcomes := RunAll(FirstFive(SearchQueries(providerName, npi, specialty, location)), perform);
    if forall q :: perform(q).Returned? {
      AllReturnedCount(outcomes);
    }
  }

  lemma {:induction false} AllReturnedCount(outcomes: seq<Outcome<seq<SearchResult>>>)
    requires forall i :: 0 <= i < |outcomes| ==> outcomes[i].Returned?
    ensures CountReturned(outcomes) == |outcomes|
    decreases |outcomes|
  {
    if |outcomes| > 0 {
      var init := outcomes[..|outcomes| - 1];
      assert forall i :: 0 <= i < |init| ==> init[i] == outcomes[i];
      AllReturnedCount(init);
    }
  }

  /**
   * The hits returned have non-empty, pairwise distinct URLs; they appear in
   * the order the searches produced them; each is the first hit with its
   * URL; and every URL any search produced is represented.
   */
  lemma UniqueByUrlProperties(results: seq<SearchResult>)
    ensures var u := UniqueByUrl(results);
      (forall i, j :: 0 <= i < j < |u| ==> ResultUrl(u[i]) != ResultUrl(u[j]))
      && (forall r :: r in u ==> ResultUrl(r) != "")
      && IsSubsequence(u, results)
      && (forall r :: r in results && ResultUrl(r) != "" ==> exists v :: v in u && ResultUrl(v) == ResultUrl(r))
  {
    var u := UniqueByUrl(results);
    KeepFirstDistinct(results, ResultUrl, HasUrl);
    KeepFirstSubsequence(results, ResultUrl, HasUrl);
    KeepFirstCovers(results, ResultUrl, HasUrl);
    forall r | r in results && ResultUrl(r) != ""
      ensures exists v :: v in u && ResultUrl(v) == ResultUrl(r)
    {
      assert HasUrl(r);
      assert ResultUrl(r) in Keys(u, ResultUrl);
    }
  }

  /** Of several hits with the same URL, the one a search produced first is kept. */
  lemma FirstHitPerUrlKept(results: seq<SearchResult>, v: SearchResult)
    requires v in UniqueByUrl(results)
    ensures exists i :: 0 <= i < |results| && results[i] == v
                        && (forall j :: 0 <= j < i && HasUrl(results[j]) ==> ResultUrl(results[j]) != ResultUrl(v))
  {
    KeepFirstIsFirst(results, ResultUrl, HasUrl, v);
  }
}
