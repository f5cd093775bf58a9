/** The baseline evaluator (eval.py): every labelled query goes through the
    unfiltered search, and each predicted list is scored against its
    expected items. analyze_results is Aggregation.Summarize. */
module Eval {
  import opened Wrappers
  import opened RagTypes
  import opened Retrieval
  import opened Scoring
  import opened Aggregation

  /** The search result run_evaluation scores for one case: search over both
      modalities with n_results = top_k. */
  function CaseSearch(c: TestCase, topK: int, embed: string -> Embedding,
                      store: Request -> Option<seq<StoreHit>>): Option<SearchResults>
  {
    Searched(c.query, topK, true, true, embed, store)
  }

  /** Entry k of `searches` is what case k's search returned. */
  predicate SearchedPrefix(searches: seq<SearchResults>, cases: seq<TestCase>, topK: int,
                           embed: string -> Embedding, store: Request -> Option<seq<StoreHit>>)
  {
    && |searches| <= |cases|
    && forall k :: 0 <= k < |searches| ==> CaseSearch(cases[k], topK, embed, store) == Some(searches[k])
  }

  lemma SearchedPrefixSnoc(searches: seq<SearchResults>, cases: seq<TestCase>, topK: int,
                           embed: string -> Embedding, store: Request -> Option<seq<StoreHit>>,
                           searched: SearchResults)
    requires SearchedPrefix(searches, cases, topK, embed, store)
    requires |searches| < |cases|
    requires CaseSearch(cases[|searches|], topK, embed, store) == Some(searched)
    ensures SearchedPrefix(searches + [searched], cases, topK, embed, store)
  {
    var searches' := searches + [searched];
    forall k | 0 <= k < |searches'| ensures CaseSearch(cases[k], topK, embed, store) == Some(searches'[k]) {
      if k < |searches| {
        assert searches'[k] == searches[k];
      }
    }
  }

  /** A complete run met no failing search, gives each case its own record
      (with no filters), and each record carries its own metrics. */
  lemma RunComplete(results: seq<CaseResult>, cases: seq<TestCase>, searches: seq<SearchResults>,
                    topK: int, embed: string -> Embedding, store: Request -> Option<seq<StoreHit>>)
    requires SearchedPrefix(searches, cases, topK, embed, store)
    requires ScoredPrefix(results, cases, searches, topK)
    requires |results| == |cases|
    ensures !exists i :: 0 <= i < |cases| && CaseSearch(cases[i], topK, embed, store).None?
    ensures Scored(results)
    ensures forall i :: 0 <= i < |cases| ==>
              var sr := CaseSearch(cases[i], topK, embed, store);
              sr.Some? && ScoredCase(results[i], cases[i].query, None, cases[i].category,
                                     cases[i].expected, sr.value, topK)
  {
    forall k | 0 <= k < |cases|
      ensures var sr := CaseSearch(cases[k], topK, embed, store);
              sr.Some? && ScoredCase(results[k], cases[k].query, None, cases[k].category,
                                     cases[k].expected, sr.value, topK)
    {
      assert CaseSearch(cases[k], topK, embed, store) == Some(searches[k]);
      assert searches[k].filters == None;
      assert ScoredCase(results[k], cases[k].query, searches[k].filters, cases[k].category,
                        cases[k].expected, searches[k], topK);
    }
  }

  /** run_evaluation(rag, top_k): one record per case, in order. search does
      not catch, so a failing store query ends the run (None). */
  method RunEvaluation(cases: seq<TestCase>, topK: int, embed: string -> Embedding,
                       store: Request -> Option<seq<StoreHit>>)
    returns (r: Option<seq<CaseResult>>)
    ensures r.None? <==> exists i :: 0 <= i < |cases| && CaseSearch(cases[i], topK, embed, store).None?
    ensures r.Some? ==>
              && |r.value| == |cases|
              && Scored(r.value)
              && forall i :: 0 <= i < |cases| ==>
                   var sr := CaseSearch(cases[i], topK, embed, store);
                   sr.Some? && ScoredCase(r.value[i], cases[i].query, None, cases[i].category,
                                          cases[i].expected, sr.value, topK)
  {
    var results: seq<CaseResult> := [];
    ghost var searches: seq<SearchResults> := [];
    while |results| < |cases|
      invariant SearchedPrefix(searches, cases, topK, embed, store)
      invariant ScoredPrefix(results, cases, searches, topK)
      decreases |cases| - |results|
    {
      var c := cases[|results|];
      var searchResults := Search(c.query, topK, true, true, embed, store);
      if searchResults.None? {
        assert CaseSearch(cases[|results|], topK, embed, store).None?;
        return None;
      }
      var res := ScoreCase(c.query, None, c.category, c.expected, searchResults.value, topK);
      SearchedPrefixSnoc(searches, cases, topK, embed, store, searchResults.value);
      ScoredPrefixSnoc(results, cases, searches, topK, res, searchResults.value);
      results := results + [res];
      searches := searches + [searchResults.value];
    }
    RunComplete(results, cases, searches, topK, embed, store);
    r := Some(results);
  }
}
