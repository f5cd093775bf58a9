/** The smart-search evaluator (eval_smart.py): each labelled query goes
    through smart_search, whose filter extraction is not part of this model
    and is given as `smartSearch` (None when it raises). The report records
    the progression from the two earlier runs' fixed scores. */
module EvalSmart {
  import opened Wrappers
  import opened RagTypes
  import opened Scoring
  import opened Aggregation

  /** Entry k of `searches` is what smart_search returned for case k. */
  predicate SearchedPrefix(searches: seq<SearchResults>, cases: seq<TestCase>, topK: int,
                           smartSearch: (string, int) -> Option<SearchResults>)
  {
    && |searches| <= |cases|
    && forall k :: 0 <= k < |searches| ==> smartSearch(cases[k].query, topK) == Some(searches[k])
  }

  lemma SearchedPrefixSnoc(searches: seq<SearchResults>, cases: seq<TestCase>, topK: int,
                           smartSearch: (string, int) -> Option<SearchResults>, searched: SearchResults)
    requires SearchedPrefix(searches, cases, topK, smartSearch)
    requires |searches| < |cases|
    requires smartSearch(cases[|searches|].query, topK) == Some(searched)
    ensures SearchedPrefix(searches + [searched], cases, topK, smartSearch)
  {
    var searches' := searches + [searched];
    forall k | 0 <= k < |searches'| ensures smartSearch(cases[k].query, topK) == Some(searches'[k]) {
      if k < |searches| {
        assert searches'[k] == searches[k];
      }
    }
  }

  /** A complete run met no failing smart_search, gives each case its own
      record, and each record carries its own metrics. */
  lemma RunComplete(results: seq<CaseResult>, cases: seq<TestCase>, searches: seq<SearchResults>,
                    topK: int, smartSearch: (string, int) -> Option<SearchResults>)
    requires SearchedPrefix(searches, cases, topK, smartSearch)
    requires ScoredPrefix(results, cases, searches, topK)
    requires |results| == |cases|
    ensures !exists i :: 0 <= i < |cases| && smartSearch(cases[i].query, topK).None?
    ensures Scored(results)
    ensures forall i :: 0 <= i < |cases| ==>
              var sr := smartSearch(cases[i].query, topK);
              sr.Some? && ScoredCase(results[i], cases[i].query, sr.value.filters, cases[i].category,
                                     cases[i].expected, sr.value, topK)
  {
    forall k | 0 <= k < |cases|
      ensures var sr := smartSearch(cases[k].query, topK);
              sr.Some? && ScoredCase(results[k], cases[k].query, sr.value.filters, cases[k].category,
                                     cases[k].expected, sr.value, topK)
    {
      assert smartSearch(cases[k].query, topK) == Some(searches[k]);
      assert ScoredCase(results[k], cases[k].query, searches[k].filters, cases[k].category,
                        cases[k].expected, searches[k], topK);
    }
  }

  /** run_smart_evaluation(rag, top_k): one record per case, in order, with
      the filters smart_search reports. A failing smart_search ends the run. */
  method RunSmartEvaluation(cases: seq<TestCase>, topK: int,
                            smartSearch: (string, int) -> Option<SearchResults>)
    returns (r: Option<seq<CaseResult>>)
    ensures r.None? <==> exists i :: 0 <= i < |cases| && smartSearch(cases[i].query, topK).None?
    ensures r.Some? ==>
              && |r.value| == |cases|
              && Scored(r.value)
              && forall i :: 0 <= i < |cases| ==>
                   var sr := smartSearch(cases[i].query, topK);
                   sr.Some? && ScoredCase(r.value[i], cases[i].query, sr.value.filters, cases[i].category,
                                          cases[i].expected, sr.value, topK)
  {
    var results: seq<CaseResult> := [];
    ghost var searches: seq<SearchResults> := [];
    while |results| < |cases|
      invariant SearchedPrefix(searches, cases, topK, smartSearch)
      invariant ScoredPrefix(results, cases, searches, topK)
      decreases |cases| - |results|
    {
      var c := cases[|results|];
      var searchResults := smartSearch(c.query, topK);
      if searchResults.None? {
        assert smartSearch(cases[|results|].query, topK).None?;
        return None;
      }
      var res := ScoreCase(c.query, searchResults.value.filters, c.category, c.expected, searchResults.value, topK);
      SearchedPrefixSnoc(searches, cases, topK, smartSearch, searchResults.value);
      ScoredPrefixSnoc(results, cases, searches, topK, res, searchResults.value);
      results := results + [res];
      searches := searches + [searchResults.value];
    }
    RunComplete(results, cases, searches, topK, smartSearch);
    r := Some(results);
  }

  /** The scores of the three search modes side by side. */
  datatype Progression = Progression(baselineSemantic: real, hybridManual: real, smartAuto: real)

  datatype SmartReport = SmartReport(summary: Summary, progression: Progression)

  /** compare_results(smart_results): overall means, per-category mean F1 and
      the progression, whose first two entries are fixed and whose last is
      this run's mean F1. */
  method CompareResults(results: seq<CaseResult>) returns (report: SmartReport)
    requires |results| > 0
    ensures report.summary.overall == OverallMetrics(results)
    ensures report.progression == Progression(0.59, 0.86, Mean(F1s(results)))
    ensures report.summary.byCategory.Keys == Categories(results)
    ensures forall c :: c in report.summary.byCategory ==>
              |Bucket(results, c)| > 0 && report.summary.byCategory[c] == Mean(Bucket(results, c))
  {
    var summary := Summarize(results);
    report := SmartReport(summary, Progression(0.59, 0.86, summary.overall.f1));
  }
}
