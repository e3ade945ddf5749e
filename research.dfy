/** The researcher: six templated search queries, their results gathered in
    query order, a numbered text rendering of those results, and one synthesis
    call. The search provider and the synthesis call are oracles. */
module Research {
  import opened Wrappers
  import opened Text

  /** One search hit; a key the provider left out is `None`. */
  datatype SearchResult = SearchResult(
    title: Option<string>,
    url: Option<string>,
    content: Option<string>,
    score: real)

  /** The search call `smart_search(query, max_results)`: its results in
      order, possibly none (a failed search yields none). */
  type SearchProvider = (string, nat) -> seq<SearchResult>

  datatype SynthesisRequest = SynthesisRequest(
    topic: string,
    brandInfo: string,
    targetAudience: string,
    searchResults: string)

  /** The synthesis generation call: the report, or `None` when it raises. */
  type Synthesizer = SynthesisRequest -> Option<string>

  /** The dictionary `conduct_research` returns. */
  datatype ResearchResult = ResearchResult(
    success: bool,
    topic: string,
    brandInfo: string,
    targetAudience: string,
    researchReport: string,
    rawResults: seq<SearchResult>,
    totalSources: nat)

  const QueryCount: nat := 6
  const MaxResultsPerQuery: nat := 3
  const ContentLimit: nat := 500
  const Missing: string := "N/A"

  // ---------------------------------------------------------------------------
  // Queries
  // ---------------------------------------------------------------------------

  /** `generate_search_queries`: six queries in a fixed order (trends,
      statistics, audience fit, brand and topic, best practices, common
      questions); every one mentions the topic. */
  function GenerateSearchQueries(topic: string, brandInfo: string, targetAudience: string): (queries: seq<string>)
    ensures |queries| == QueryCount
    ensures forall k :: 0 <= k < |queries| ==> Contains(queries[k], topic)
    ensures queries[2] == topic + " for " + targetAudience
    ensures queries[3] == brandInfo + " " + topic
  {
    ContainsPrefix(topic, " latest trends 2025");
    ContainsPrefix(topic, " statistics and data");
    ContainsPrefix(topic, " for " + targetAudience);
    ContainsSuffix(brandInfo + " ", topic);
    ContainsPrefix(topic, " best practices");
    ContainsPrefix(topic, " common questions");
    assert topic + " for " + targetAudience == topic + (" for " + targetAudience);
    [ topic + " latest trends 2025",
      topic + " statistics and data",
      topic + " for " + targetAudience,
      brandInfo + " " + topic,
      topic + " best practices",
      topic + " common questions" ]
  }

  // ---------------------------------------------------------------------------
  // Gathering
  // ---------------------------------------------------------------------------

  /** The results of the queries, each issued with `max_results=3`, one query's
      results after another's, in query order (`all_results.extend(...)`). */
  function Gathered(queries: seq<string>, search: SearchProvider): seq<SearchResult>
    decreases |queries|
  {
    if |queries| == 0 then []
    else Gathered(queries[..|queries| - 1], search) + search(queries[|queries| - 1], MaxResultsPerQuery)
  }

  /** How many results the queries return in all. */
  function ResultCount(queries: seq<string>, search: SearchProvider): nat
    decreases |queries|
  {
    if |queries| == 0 then 0
    else |search(queries[0], MaxResultsPerQuery)| + ResultCount(queries[1..], search)
  }

  /** The gathered list is as long as the per-query counts added up. */
  lemma {:induction false} GatheredLength(queries: seq<string>, search: SearchProvider)
    ensures |Gathered(queries, search)| == ResultCount(queries, search)
    decreases |queries|
  {
    if |queries| > 0 {
      var last := |queries| - 1;
      GatheredLength(queries[..last], search);
      ResultCountSnoc(queries[..last], queries[last], search);
      assert queries[..last] + [queries[last]] == queries;
    }
  }

  /** Counting a query appended at the end adds its own results. */
  lemma {:induction false} ResultCountSnoc(queries: seq<string>, q: string, search: SearchProvider)
    ensures ResultCount(queries + [q], search)
            == ResultCount(queries, search) + |search(q, MaxResultsPerQuery)|
    decreases |queries|
  {
    if |queries| > 0 {
      assert (queries + [q])[1..] == queries[1..] + [q];
      ResultCountSnoc(queries[1..], q, search);
    }
  }

  /** A provider that honours its result cap gives at most three results per
      query. */
  lemma {:induction false} GatheredBound(queries: seq<string>, search: SearchProvider)
    requires forall q, m :: |search(q, m)| <= m
    ensures |Gathered(queries, search)| <= MaxResultsPerQuery * |queries|
    decreases |queries|
  {
    if |queries| > 0 {
      GatheredBound(queries[..|queries| - 1], search);
    }
  }

  // ---------------------------------------------------------------------------
  // Formatting
  // ---------------------------------------------------------------------------

  /** A field of a result, "N/A" when it is missing. */
  function FieldOr(field: Option<string>): (r: string)
    ensures field.None? ==> r == Missing
    ensures field.Some? ==> r == field.value
  {
    field.GetOr(Missing)
  }

  /** `result.get('content', 'N/A')[:500]`: at most 500 characters, a prefix of
      the content, all of it when it is short enough. */
  function Excerpt(r: SearchResult): (e: string)
    ensures |e| <= ContentLimit
    ensures r.content.Some? ==> |e| <= |r.content.value| && e == r.content.value[..|e|]
    ensures r.content.Some? && |r.content.value| <= ContentLimit ==> e == r.content.value
    ensures r.content.Some? && |r.content.value| > ContentLimit ==> |e| == ContentLimit
    ensures r.content.None? ==> e == Missing
  {
    Take(FieldOr(r.content), ContentLimit)
  }

  /** The text block for source number `number`: its text up to the first
      `:` is "\nSource " and the number. */
  function SourceBlock(number: nat, r: SearchResult): (block: string)
    ensures Split(block, ':')[0] == "\nSource " + NatToString(number)
  {
    var head := "\nSource " + NatToString(number);
    var tail := "\nTitle: " + FieldOr(r.title) + "\nURL: " + FieldOr(r.url)
                + "\nContent: " + Excerpt(r) + "...\n---\n            ";
    assert ':' !in "\nSource ";
    assert ':' !in NatToString(number);
    SplitAtFirstSeparator(head, ':', tail);
    head + [':'] + tail
  }

  /** Blocks with different numbers are different texts: the number is what
      precedes the first `:` of a block. */
  lemma BlockNumbersDistinct(m: nat, r1: SearchResult, n: nat, r2: SearchResult)
    requires SourceBlock(m, r1) == SourceBlock(n, r2)
    ensures m == n
  {
    var head1 := "\nSource " + NatToString(m);
    var head2 := "\nSource " + NatToString(n);
    assert head1[8..] == NatToString(m);
    assert head2[8..] == NatToString(n);
    NatToStringInjective(m, n);
  }

  /** One block per result, numbered from 1 in input order. */
  function Blocks(results: seq<SearchResult>): (blocks: seq<string>)
    ensures |blocks| == |results|
    ensures forall k :: 0 <= k < |results| ==> blocks[k] == SourceBlock(k + 1, results[k])
    decreases |results|
  {
    if |results| == 0 then []
    else Blocks(results[..|results| - 1]) + [SourceBlock(|results|, results[|results| - 1])]
  }

  /** The text `_format_search_results` returns: the blocks joined by "\n". */
  function FormattedResults(results: seq<SearchResult>): string
  {
    Join(Blocks(results), "\n")
  }

  /** `_format_search_results`: builds the numbered blocks in a loop and joins
      them; no results give "". */
  method FormatSearchResults(results: seq<SearchResult>) returns (text: string)
    ensures text == FormattedResults(results)
    ensures |results| == 0 ==> text == ""
  {
    var formatted: seq<string> := [];
    for i := 0 to |results|
      invariant |formatted| == i
      invariant forall k :: 0 <= k < i ==> formatted[k] == SourceBlock(k + 1, results[k])
    {
      formatted := formatted + [SourceBlock(i + 1, results[i])];
    }
    assert formatted == Blocks(results);
    text := Join(formatted, "\n");
  }

  // ---------------------------------------------------------------------------
  // The research step
  // ---------------------------------------------------------------------------

  /** What `conduct_research` returns: the gathered results, their count, the
      inputs echoed and the synthesized report; `None` when the synthesis call
      raises (the exception is not caught here). */
  function Researched(topic: string, brandInfo: string, targetAudience: string,
                      search: SearchProvider, synthesize: Synthesizer): Option<ResearchResult>
  {
    var results := Gathered(GenerateSearchQueries(topic, brandInfo, targetAudience), search);
    match synthesize(SynthesisRequest(topic, brandInfo, targetAudience, FormattedResults(results)))
    case None => None
    case Some(report) =>
      Some(ResearchResult(true, topic, brandInfo, targetAudience, report, results, |results|))
  }

  /** `conduct_research`: issues the six queries in order, extends the result
      list with each query's results, formats them and asks for the synthesis.
      `industry` is accepted and not used. */
  method ConductResearch(topic: string, brandInfo: string, targetAudience: string, industry: string,
                         search: SearchProvider, synthesize: Synthesizer)
    returns (r: Option<ResearchResult>)
    ensures r == Researched(topic, brandInfo, targetAudience, search, synthesize)
  {
    var queries := GenerateSearchQueries(topic, brandInfo, targetAudience);
    var allResults: seq<SearchResult> := [];
    for i := 0 to |queries|
      invariant allResults == Gathered(queries[..i], search)
    {
      var results := search(queries[i], MaxResultsPerQuery);
      assert queries[..i + 1][..i] == queries[..i];
      allResults := allResults + results;
    }
    assert queries[..|queries|] == queries;
    assert allResults == Gathered(queries, search);
    var formatted := FormatSearchResults(allResults);
    var report := synthesize(SynthesisRequest(topic, brandInfo, targetAudience, formatted));
    if report.None? {
      return None;
    }
    r := Some(ResearchResult(true, topic, brandInfo, targetAudience, report.value, allResults, |allResults|));
    assert r == Researched(topic, brandInfo, targetAudience, search, synthesize);
  }

  /** A completed research step reports success, echoes its inputs, and counts
      as its sources the per-query result counts added up; it fails exactly
      when the synthesis call raises. */
  lemma ResearchedReport(topic: string, brandInfo: string, targetAudience: string,
                         search: SearchProvider, synthesize: Synthesizer)
    ensures var r := Researched(topic, brandInfo, targetAudience, search, synthesize);
            var queries := GenerateSearchQueries(topic, brandInfo, targetAudience);
            && (r.None? <==> synthesize(SynthesisRequest(topic, brandInfo, targetAudience,
                                   FormattedResults(Gathered(queries, search)))).None?)
            && (r.Some? ==>
                  && r.value.success
                  && r.value.topic == topic && r.value.brandInfo == brandInfo
                  && r.value.targetAudience == targetAudience
                  && r.value.rawResults == Gathered(queries, search)
                  && r.value.totalSources == ResultCount(queries, search))
  {
    GatheredLength(GenerateSearchQueries(topic, brandInfo, targetAudience), search);
  }

  /** With a provider that honours its cap, research uses at most 18 sources. */
  lemma ResearchedSourceBound(topic: string, brandInfo: string, targetAudience: string,
                              search: SearchProvider, synthesize: Synthesizer)
    requires forall q, m :: |search(q, m)| <= m
    ensures var r := Researched(topic, brandInfo, targetAudience, search, synthesize);
            r.Some? ==> r.value.totalSources <= MaxResultsPerQuery * QueryCount
  {
    GatheredBound(GenerateSearchQueries(topic, brandInfo, targetAudience), search);
  }
}
