/** The hybrid evaluator (eval_hybrid.py): each labelled query carries a
    manual filter and goes through hybrid_search; the report adds the
    improvement over the fixed semantic-only baseline. */
module EvalHybrid {
  import opened Wrappers
  import opened RagTypes
  import opened WhereClause
  import opened Retrieval
  import opened Scoring
  import opened Aggregation

  /** One entry of HYBRID_EVAL_SET. */
  datatype HybridCase = HybridCase(query: string, filters: Option<Filter>, expected: seq<string>, category: string)

  /** The F1 of the semantic-only baseline, as a fraction. */
  const BaselineF1: real := 0.59

  /** The eval set's manual filters, in its order (eval_hybrid.py:9-58). */
  const EvalSetFilters: seq<Option<Filter>> := [
    Some([("color", Str("red")), ("category", Str("footwear"))]),
    Some([("category", Str("furniture"))]),
    Some([("color", Str("white"))]),
    Some([("category", Str("electronics")), ("price", Dict([("$lt", Int(300))]))]),
    Some([("color", Str("brown"))]),
    Some([("category", Str("furniture"))]),
    None,
    Some([("category", Str("footwear"))])
  ]

  /** The store predicates the eval set's filters translate to: single fields
      stay bare, the two two-field filters become an $and, and the filterless
      case passes no predicate at all. */
  lemma EvalSetClauses()
    ensures WhereFor(EvalSetFilters[0]) == Some(And([Eq("color", Str("red")), Eq("category", Str("footwear"))]))
    ensures WhereFor(EvalSetFilters[1]) == Some(Eq("category", Str("furniture")))
    ensures WhereFor(EvalSetFilters[2]) == Some(Eq("color", Str("white")))
    ensures WhereFor(EvalSetFilters[3]) == Some(And([Eq("category", Str("electronics")), Range("price", [("$lt", Int(300))])]))
    ensures WhereFor(EvalSetFilters[4]) == Some(Eq("color", Str("brown")))
    ensures WhereFor(EvalSetFilters[5]) == Some(Eq("category", Str("furniture")))
    ensures WhereFor(EvalSetFilters[6]) == None
    ensures WhereFor(EvalSetFilters[7]) == Some(Eq("category", Str("footwear")))
  {
    assert Conditions(EvalSetFilters[0].value) == [Eq("color", Str("red")), Eq("category", Str("footwear"))];
    assert Conditions(EvalSetFilters[1].value) == [Eq("category", Str("furniture"))];
    assert Conditions(EvalSetFilters[2].value) == [Eq("color", Str("white"))];
    ElectronicsUnder300();
    assert Conditions(EvalSetFilters[4].value) == [Eq("color", Str("brown"))];
    assert Conditions(EvalSetFilters[5].value) == [Eq("category", Str("furniture"))];
    assert Conditions(EvalSetFilters[7].value) == [Eq("category", Str("footwear"))];
  }

  /** The search result run_hybrid_evaluation scores for one case. */
  function CaseSearch(c: HybridCase, topK: int, embed: string -> Embedding,
                      store: Request -> Option<seq<StoreHit>>): SearchResults
  {
    HybridSearched(c.query, topK, c.filters, true, true, embed, store)
  }

  /** The record run_hybrid_evaluation appends for case c. */
  predicate CaseScored(res: CaseResult, c: HybridCase, topK: int, embed: string -> Embedding,
                       store: Request -> Option<seq<StoreHit>>)
  {
    ScoredCase(res, c.query, c.filters, c.category, c.expected, CaseSearch(c, topK, embed, store), topK)
  }

  /** Entry k of `searches` is case k's own hybrid search. */
  predicate SearchedPrefix(searches: seq<SearchResults>, cases: seq<HybridCase>, topK: int,
                           embed: string -> Embedding, store: Request -> Option<seq<StoreHit>>)
  {
    && |searches| <= |cases|
    && forall k :: 0 <= k < |searches| ==> searches[k] == CaseSearch(cases[k], topK, embed, store)
  }

  lemma SearchedPrefixSnoc(searches: seq<SearchResults>, cases: seq<HybridCase>, topK: int,
                           embed: string -> Embedding, store: Request -> Option<seq<StoreHit>>,
                           searched: SearchResults)
    requires SearchedPrefix(searches, cases, topK, embed, store)
    requires |searches| < |cases|
    requires searched == CaseSearch(cases[|searches|], topK, embed, store)
    ensures SearchedPrefix(searches + [searched], cases, topK, embed, store)
  {
    var searches' := searches + [searched];
    forall k | 0 <= k < |searches'| ensures searches'[k] == CaseSearch(cases[k], topK, embed, store) {
      if k < |searches| {
        assert searches'[k] == searches[k];
      }
    }
  }

  /** Record k was scored for case k from search result k. */
  predicate ScoredPrefix(results: seq<CaseResult>, cases: seq<HybridCase>, searches: seq<SearchResults>, topK: int)
  {
    && |results| == |searches| <= |cases|
    && forall k :: 0 <= k < |results| ==>
         ScoredCase(results[k], cases[k].query, cases[k].filters, cases[k].category,
                    cases[k].expected, searches[k], topK)
  }

  lemma ScoredPrefixSnoc(results: seq<CaseResult>, cases: seq<HybridCase>, searches: seq<SearchResults>,
                         topK: int, res: CaseResult, searched: SearchResults)
    requires ScoredPrefix(results, cases, searches, topK)
    requires |results| < |cases|
    requires ScoredCase(res, cases[|results|].query, cases[|results|].filters, cases[|results|].category,
                        cases[|results|].expected, searched, topK)
    ensures ScoredPrefix(results + [res], cases, searches + [searched], topK)
  {
    var results', searches' := results + [res], searches + [searched];
    forall k | 0 <= k < |results'|
      ensures ScoredCase(results'[k], cases[k].query, cases[k].filters, cases[k].category,
                         cases[k].expected, searches'[k], topK)
    {
      if k < |results| {
        assert results'[k] == results[k] && searches'[k] == searches[k];
      }
    }
  }

  /** A complete run gives each case its own record, and each record carries
      its own metrics. */
  lemma RunComplete(results: seq<CaseResult>, cases: seq<HybridCase>, searches: seq<SearchResults>,
                    topK: int, embed: string -> Embedding, store: Request -> Option<seq<StoreHit>>)
    requires SearchedPrefix(searches, cases, topK, embed, store)
    requires ScoredPrefix(results, cases, searches, topK)
    requires |results| == |cases|
    ensures Scored(results)
    ensures forall i :: 0 <= i < |cases| ==> CaseScored(results[i], cases[i], topK, embed, store)
  {
    forall k | 0 <= k < |cases| ensures CaseScored(results[k], cases[k], topK, embed, store) {
      assert searches[k] == CaseSearch(cases[k], topK, embed, store);
      assert ScoredCase(results[k], cases[k].query, cases[k].filters, cases[k].category,
                        cases[k].expected, searches[k], topK);
    }
  }

  /** One iteration of run_hybrid_evaluation's loop; `searched` is the
      search result the record was scored from. */
  method RunHybridCase(c: HybridCase, topK: int, embed: string -> Embedding,
                       store: Request -> Option<seq<StoreHit>>)
    returns (res: CaseResult, searched: SearchResults)
    ensures searched == CaseSearch(c, topK, embed, store)
    ensures ScoredCase(res, c.query, c.filters, c.category, c.expected, searched, topK)
  {
    searched := HybridSearch(c.query, topK, c.filters, true, true, embed, store);
    res := ScoreCase(c.query, c.filters, c.category, c.expected, searched, topK);
  }

  /** run_hybrid_evaluation(rag, top_k): one record per case, in order, with
      the case's filters. hybrid_search catches store failures, so the run
      always completes. */
  method RunHybridEvaluation(cases: seq<HybridCase>, topK: int, embed: string -> Embedding,
                             store: Request -> Option<seq<StoreHit>>)
    returns (results: seq<CaseResult>)
    ensures |results| == |cases|
    ensures Scored(results)
    ensures forall i :: 0 <= i < |cases| ==> CaseScored(results[i], cases[i], topK, embed, store)
  {
    results := [];
    ghost var searches: seq<SearchResults> := [];
    while |results| < |cases|
      invariant SearchedPrefix(searches, cases, topK, embed, store)
      invariant ScoredPrefix(results, cases, searches, topK)
      decreases |cases| - |results|
    {
      var res, searched := RunHybridCase(cases[|results|], topK, embed, store);
      SearchedPrefixSnoc(searches, cases, topK, embed, store, searched);
      ScoredPrefixSnoc(results, cases, searches, topK, res, searched);
      results := results + [res];
      searches := searches + [searched];
    }
    RunComplete(results, cases, searches, topK, embed, store);
  }

  /** improvement_over_baseline, in percentage points. */
  function Improvement(meanF1: real): real
  {
    (meanF1 - BaselineF1) * 100.0
  }

  /** The improvement is positive exactly when the run beats the baseline,
      and for a mean F1 in [0, 1] lies between -59 and +41 points. */
  lemma ImprovementRange(meanF1: real)
    ensures Improvement(meanF1) > 0.0 <==> meanF1 > BaselineF1
    ensures Improvement(meanF1) == 0.0 <==> meanF1 == BaselineF1
    ensures 0.0 <= meanF1 <= 1.0 ==> -59.0 <= Improvement(meanF1) <= 41.0
  {
  }

  datatype HybridReport = HybridReport(summary: Summary, improvementOverBaseline: real)

  /** compare_results(hybrid_results): overall means, per-category mean F1 and
      the improvement of the mean F1 over the baseline. */
  method CompareResults(results: seq<CaseResult>) returns (report: HybridReport)
    requires |results| > 0
    ensures report.summary.overall == OverallMetrics(results)
    ensures report.improvementOverBaseline == Improvement(Mean(F1s(results)))
    ensures report.summary.byCategory.Keys == Categories(results)
    ensures forall c :: c in report.summary.byCategory ==>
              |Bucket(results, c)| > 0 && report.summary.byCategory[c] == Mean(Bucket(results, c))
  {
    var summary := Summarize(results);
    report := HybridReport(summary, Improvement(summary.overall.f1));
  }
}
