/** What the three evaluation scripts share beside calculate_metrics: the
    predicted list built from one search's results, the per-case record, the
    per-category grouping of F1 scores and the means over a run. */
module Aggregation {
  import opened Wrappers
  import opened Text
  import opened RagTypes
  import opened Scoring

  /** One entry of a run's `results` list. `filters` is the case's filter
      (eval_hybrid.py), the filter the search reports (eval_smart.py's
      "auto_filters"), or None (eval.py records none). */
  datatype CaseResult = CaseResult(
    query: string,
    filters: Option<Filter>,
    category: string,
    expected: seq<string>,
    predicted: seq<string>,
    metrics: Metrics)

  /** One labelled query of EVAL_SET or SMART_EVAL_SET. */
  datatype TestCase = TestCase(query: string, expected: seq<string>, category: string)

  // ---------------------------------------------------------------------------
  // The predicted list: list(set(filenames))[:top_k]

  /** The filenames of the text hits, then those of the image hits. */
  function Filenames(r: SearchResults): seq<string>
  {
    seq(|r.textResults|, i requires 0 <= i < |r.textResults| => r.textResults[i].metadata.filename)
      + seq(|r.imageResults|, i requires 0 <= i < |r.imageResults| => r.imageResults[i].metadata.filename)
  }

  /** Python's xs[:k], a negative k counting from the end. */
  function SliceTo<T>(xs: seq<T>, k: int): (s: seq<T>)
    ensures |s| == SliceLength(|xs|, k)
    ensures s == xs[..|s|]
  {
    if k >= 0 then (if k < |xs| then xs[..k] else xs)
    else if |xs| + k > 0 then xs[..|xs| + k] else []
  }

  function SliceLength(len: nat, k: int): (n: nat)
    ensures n <= len
    ensures k >= 0 ==> n <= k
  {
    if k >= 0 then (if k < len then k else len)
    else if len + k > 0 then len + k else 0
  }

  /** list(s): the elements of s in some order that Python does not specify. */
  method Enumerate(s: set<string>) returns (xs: seq<string>)
    ensures NoDup(xs) && Elements(xs) == s && |xs| == |s|
  {
    xs := [];
    var rest := s;
    while rest != {}
      invariant rest <= s
      invariant Elements(xs) == s - rest
      invariant NoDup(xs)
      invariant |xs| + |rest| == |s|
      decreases |rest|
    {
      var x :| x in rest;
      assert Elements(xs + [x]) == Elements(xs) + {x};
      xs := xs + [x];
      rest := rest - {x};
    }
  }

  /** What the source promises of a predicted list: no filename twice, only
      filenames of the results, as many as top_k keeps of the distinct ones,
      and all of them when there are no more than top_k. */
  predicate PredictedFrom(predicted: seq<string>, r: SearchResults, topK: int)
  {
    var names := Elements(Filenames(r));
    && NoDup(predicted)
    && Elements(predicted) <= names
    && |predicted| == SliceLength(|names|, topK)
    && (|names| <= topK ==> Elements(predicted) == names)
  }

  /** The loops of run_evaluation (and its two copies) that collect the
      filenames of the text and image hits, then list(set(predicted))[:top_k]. */
  method PredictedList(r: SearchResults, topK: int) returns (predicted: seq<string>)
    ensures PredictedFrom(predicted, r, topK)
  {
    var all: seq<string> := [];
    var i := 0;
    while i < |r.textResults|
      invariant 0 <= i <= |r.textResults|
      invariant all == Filenames(r)[..i]
    {
      all := all + [r.textResults[i].metadata.filename];
      i := i + 1;
    }
    var t := |r.textResults|;
    var j := 0;
    while j < |r.imageResults|
      invariant 0 <= j <= |r.imageResults|
      invariant all == Filenames(r)[..t + j]
    {
      all := all + [r.imageResults[j].metadata.filename];
      j := j + 1;
    }
    assert all == Filenames(r);
    var unique := Enumerate(Elements(all));
    predicted := SliceTo(unique, topK);
    assert |Elements(all)| <= topK ==> predicted == unique;
  }

  /** The two stated bounds: at most top_k entries and no duplicates. */
  lemma PredictedBounds(predicted: seq<string>, r: SearchResults, topK: nat)
    requires PredictedFrom(predicted, r, topK)
    ensures |predicted| <= topK
    ensures forall i :: 0 <= i < |predicted| ==> predicted[i] in Filenames(r)
  {
    forall i | 0 <= i < |predicted| ensures predicted[i] in Filenames(r) {
      assert predicted[i] in Elements(predicted);
    }
  }

  // ---------------------------------------------------------------------------
  // One scored case

  /** The record one iteration of a run appends. */
  predicate ScoredCase(res: CaseResult, query: string, filters: Option<Filter>, category: string,
                       expected: seq<string>, r: SearchResults, topK: int)
  {
    && res.query == query
    && res.filters == filters
    && res.category == category
    && res.expected == expected
    && PredictedFrom(res.predicted, r, topK)
    && SelfScored(res)
  }

  /** The body of one iteration: predicted list, metrics, record. */
  method ScoreCase(query: string, filters: Option<Filter>, category: string,
                   expected: seq<string>, r: SearchResults, topK: int)
    returns (res: CaseResult)
    ensures ScoredCase(res, query, filters, category, expected, r, topK)
  {
    var predicted := PredictedList(r, topK);
    var metrics := CalculateMetrics(predicted, expected);
    res := CaseResult(query, filters, category, expected, predicted, metrics);
  }

  /** Record k was scored for labelled case k from search result k, with the
      filters that search reports. */
  predicate ScoredPrefix(results: seq<CaseResult>, cases: seq<TestCase>, searches: seq<SearchResults>, topK: int)
  {
    && |results| == |searches| <= |cases|
    && forall k :: 0 <= k < |results| ==>
         ScoredCase(results[k], cases[k].query, searches[k].filters, cases[k].category,
                    cases[k].expected, searches[k], topK)
  }

  /** Appending the record for the next case keeps the prefix scored. */
  lemma ScoredPrefixSnoc(results: seq<CaseResult>, cases: seq<TestCase>, searches: seq<SearchResults>,
                         topK: int, res: CaseResult, searched: SearchResults)
    requires ScoredPrefix(results, cases, searches, topK)
    requires |results| < |cases|
    requires ScoredCase(res, cases[|results|].query, searched.filters, cases[|results|].category,
                        cases[|results|].expected, searched, topK)
    ensures ScoredPrefix(results + [res], cases, searches + [searched], topK)
  {
    var results', searches' := results + [res], searches + [searched];
    forall k | 0 <= k < |results'|
      ensures ScoredCase(results'[k], cases[k].query, searches'[k].filters, cases[k].category,
                         cases[k].expected, searches'[k], topK)
    {
      if k < |results| {
        assert ScoredCase(results[k], cases[k].query, searches[k].filters, cases[k].category,
                          cases[k].expected, searches[k], topK);
        assert results'[k] == results[k] && searches'[k] == searches[k];
      } else {
        assert results'[k] == res && searches'[k] == searched;
      }
    }
  }

  /** The record's metrics are calculate_metrics of its own lists. */
  predicate SelfScored(res: CaseResult)
  {
    res.metrics == CalculateMetrics(res.predicted, res.expected)
  }

  /** Every record of a run is self-scored. */
  predicate Scored(results: seq<CaseResult>)
  {
    forall i :: 0 <= i < |results| ==> SelfScored(results[i])
  }

  // ---------------------------------------------------------------------------
  // Means

  function Sum(xs: seq<real>): real
  {
    if |xs| == 0 then 0.0 else xs[0] + Sum(xs[1..])
  }

  function Mean(xs: seq<real>): real
    requires |xs| > 0
  {
    Sum(xs) / |xs| as real
  }

  predicate InUnitInterval(xs: seq<real>)
  {
    forall i :: 0 <= i < |xs| ==> 0.0 <= xs[i] <= 1.0
  }

  lemma {:induction false} SumBounds(xs: seq<real>)
    requires InUnitInterval(xs)
    ensures 0.0 <= Sum(xs) <= |xs| as real
  {
    if |xs| > 0 {
      SumBounds(xs[1..]);
    }
  }

  /** The mean of scores in [0, 1] is in [0, 1]. */
  lemma MeanInUnitInterval(xs: seq<real>)
    requires |xs| > 0 && InUnitInterval(xs)
    ensures 0.0 <= Mean(xs) <= 1.0
  {
    SumBounds(xs);
    var m := Mean(xs);
    assert m * |xs| as real == Sum(xs);
  }

  function Precisions(results: seq<CaseResult>): seq<real>
  {
    seq(|results|, i requires 0 <= i < |results| => results[i].metrics.precision)
  }

  function Recalls(results: seq<CaseResult>): seq<real>
  {
    seq(|results|, i requires 0 <= i < |results| => results[i].metrics.recall)
  }

  function F1s(results: seq<CaseResult>): seq<real>
  {
    seq(|results|, i requires 0 <= i < |results| => results[i].metrics.f1)
  }

  datatype Overall = Overall(precision: real, recall: real, f1: real)

  /** total_precision, total_recall, total_f1: sums over the results divided by
      their number (a ZeroDivisionError on an empty run). */
  function OverallMetrics(results: seq<CaseResult>): Overall
    requires |results| > 0
  {
    Overall(Mean(Precisions(results)), Mean(Recalls(results)), Mean(F1s(results)))
  }

  // ---------------------------------------------------------------------------
  // Per-category grouping

  /** The F1 scores of the results of category c, in result order. */
  function Bucket(results: seq<CaseResult>, c: string): seq<real>
  {
    if |results| == 0 then []
    else
      var last := results[|results| - 1];
      Bucket(results[..|results| - 1], c) + (if last.category == c then [last.metrics.f1] else [])
  }

  function Categories(results: seq<CaseResult>): set<string>
  {
    set i | 0 <= i < |results| :: results[i].category
  }

  lemma CategoriesSnoc(results: seq<CaseResult>, r: CaseResult)
    ensures Categories(results + [r]) == Categories(results) + {r.category}
  {
    var rs := results + [r];
    forall c | c in Categories(rs) ensures c in Categories(results) + {r.category} {
      var i :| 0 <= i < |rs| && rs[i].category == c;
      if i < |results| { assert results[i] == rs[i]; }
    }
    forall c | c in Categories(results) ensures c in Categories(rs) {
      var i :| 0 <= i < |results| && results[i].category == c;
      assert rs[i] == results[i];
    }
    assert rs[|results|] == r;
  }

  /** A category has a non-empty bucket exactly when some result has it. */
  lemma {:induction false} BucketEmptyIff(results: seq<CaseResult>, c: string)
    ensures Bucket(results, c) == [] <==> c !in Categories(results)
  {
    if |results| > 0 {
      var init := results[..|results| - 1];
      BucketEmptyIff(init, c);
      assert results == init + [results[|results| - 1]];
      CategoriesSnoc(init, results[|results| - 1]);
    }
  }

  /** The index of the first result of category c, or |results| when there is none. */
  function FirstIndex(results: seq<CaseResult>, c: string): (k: nat)
    ensures k <= |results|
    ensures k < |results| ==> results[k].category == c
    ensures forall j :: 0 <= j < k ==> results[j].category != c
    ensures k < |results| <==> c in Categories(results)
    decreases |results|
  {
    if |results| == 0 then 0
    else if results[0].category == c then 0
    else
      var k := 1 + FirstIndex(results[1..], c);
      assert forall j :: 1 <= j < k ==> results[j] == results[1..][j - 1];
      assert k < |results| ==> results[k] == results[1..][k - 1];
      k
  }

  /** Appending a result leaves the first index of a category already seen
      unchanged, and puts a new category's first index at the end. */
  lemma FirstIndexSnoc(results: seq<CaseResult>, r: CaseResult, c: string)
    ensures c in Categories(results) ==> FirstIndex(results + [r], c) == FirstIndex(results, c)
    ensures c !in Categories(results) && r.category == c ==> FirstIndex(results + [r], c) == |results|
  {
    var rs := results + [r];
    var k0, k1 := FirstIndex(results, c), FirstIndex(rs, c);
    if c in Categories(results) {
      assert rs[k0] == results[k0];
    } else if r.category == c {
      assert rs[|results|] == r;
    }
  }

  /** The categories in `order` come in the order of their first appearance in `done`. */
  predicate InFirstAppearanceOrder(order: seq<string>, done: seq<CaseResult>)
  {
    forall i, j :: 0 <= i < j < |order| ==> FirstIndex(done, order[i]) < FirstIndex(done, order[j])
  }

  /** `order` lists the categories of `done` once each, and `categories`
      maps each to its bucket. */
  predicate Grouped(order: seq<string>, categories: map<string, seq<real>>, done: seq<CaseResult>)
  {
    && NoDup(order)
    && Elements(order) == categories.Keys == Categories(done)
    && forall c :: c in categories ==> categories[c] == Bucket(done, c)
  }

  /** Appending a result keeps the order of first appearance: a new category
      goes last, and the others keep their first indices. */
  lemma FirstAppearanceSnoc(order: seq<string>, done: seq<CaseResult>, r: CaseResult)
    requires Elements(order) == Categories(done)
    requires InFirstAppearanceOrder(order, done)
    ensures r.category in Categories(done) ==> InFirstAppearanceOrder(order, done + [r])
    ensures r.category !in Categories(done) ==> InFirstAppearanceOrder(order + [r.category], done + [r])
  {
    forall i | 0 <= i < |order|
      ensures FirstIndex(done + [r], order[i]) == FirstIndex(done, order[i]) < |done|
    {
      assert order[i] in Elements(order);
      FirstIndexSnoc(done, r, order[i]);
    }
    if r.category !in Categories(done) {
      FirstIndexSnoc(done, r, r.category);
      var order' := order + [r.category];
      forall i, j | 0 <= i < j < |order'|
        ensures FirstIndex(done + [r], order'[i]) < FirstIndex(done + [r], order'[j])
      {
        assert order'[i] == order[i];
        if j < |order| {
          assert order'[j] == order[j];
        }
      }
    }
  }

  /** One iteration of the grouping loop: open the category's list if it is
      new, then append the result's F1 to it. */
  method AddResult(order: seq<string>, categories: map<string, seq<real>>, ghost done: seq<CaseResult>, r: CaseResult)
    returns (order': seq<string>, categories': map<string, seq<real>>)
    requires Grouped(order, categories, done)
    ensures Grouped(order', categories', done + [r])
    ensures order' == if r.category in Categories(done) then order else order + [r.category]
  {
    var cat := r.category;
    assert (done + [r])[..|done|] == done;
    CategoriesSnoc(done, r);
    order', categories' := order, categories;
    if cat !in categories' {
      BucketEmptyIff(done, cat);
      categories' := categories'[cat := []];
      order' := order' + [cat];
    }
    categories' := categories'[cat := categories'[cat] + [r.metrics.f1]];
  }

  /** The loop of analyze_results / compare_results that fills the
      `categories` dictionary; `order` is its key order (first appearance). */
  method GroupByCategory(results: seq<CaseResult>)
    returns (order: seq<string>, categories: map<string, seq<real>>)
    ensures NoDup(order)
    ensures Elements(order) == categories.Keys == Categories(results)
    ensures forall i, j :: 0 <= i < j < |order| ==> FirstIndex(results, order[i]) < FirstIndex(results, order[j])
    ensures forall c :: c in categories ==> categories[c] == Bucket(results, c) && |categories[c]| > 0
  {
    order := [];
    categories := map[];
    var i := 0;
    while i < |results|
      invariant 0 <= i <= |results|
      invariant Grouped(order, categories, results[..i])
      invariant InFirstAppearanceOrder(order, results[..i])
    {
      assert results[..i + 1] == results[..i] + [results[i]];
      FirstAppearanceSnoc(order, results[..i], results[i]);
      order, categories := AddResult(order, categories, results[..i], results[i]);
      i := i + 1;
    }
    assert results[..i] == results;
    forall c | c in categories ensures |categories[c]| > 0 {
      BucketEmptyIff(results, c);
    }
  }

  /** Occurrences of x in s. */
  function Count(s: seq<string>, x: string): nat
  {
    if |s| == 0 then 0 else (if s[0] == x then 1 else 0) + Count(s[1..], x)
  }

  lemma {:induction false} CountNoDup(s: seq<string>, x: string)
    requires NoDup(s)
    ensures Count(s, x) == if x in s then 1 else 0
  {
    if |s| > 0 {
      assert NoDup(s[1..]);
      CountNoDup(s[1..], x);
      if s[0] == x {
        assert x !in s[1..];
      }
    }
  }

  /** The sizes of the buckets of the categories in `order`, added up. */
  function SizeSum(order: seq<string>, results: seq<CaseResult>): nat
  {
    if |order| == 0 then 0 else |Bucket(results, order[0])| + SizeSum(order[1..], results)
  }

  lemma {:induction false} SizeSumSnoc(order: seq<string>, results: seq<CaseResult>, r: CaseResult)
    ensures SizeSum(order, results + [r]) == SizeSum(order, results) + Count(order, r.category)
  {
    if |order| > 0 {
      SizeSumSnoc(order[1..], results, r);
      var rs := results + [r];
      assert rs[..|rs| - 1] == results;
    }
  }

  /** Each result lands in exactly one bucket: over the distinct categories,
      the bucket sizes add up to the number of results. */
  lemma {:induction false} BucketSizesSum(order: seq<string>, results: seq<CaseResult>)
    requires NoDup(order)
    requires Categories(results) <= Elements(order)
    ensures SizeSum(order, results) == |results|
  {
    if |results| == 0 {
      SizeSumEmpty(order);
    } else {
      var init, last := results[..|results| - 1], results[|results| - 1];
      assert results == init + [last];
      CategoriesSnoc(init, last);
      BucketSizesSum(order, init);
      SizeSumSnoc(order, init, last);
      CountNoDup(order, last.category);
    }
  }

  lemma {:induction false} SizeSumEmpty(order: seq<string>)
    ensures SizeSum(order, []) == 0
  {
    if |order| > 0 {
      SizeSumEmpty(order[1..]);
    }
  }

  /** A bucket holds F1 scores of the run, so it lies in [0, 1] when they do. */
  lemma {:induction false} BucketInUnitInterval(results: seq<CaseResult>, c: string)
    requires InUnitInterval(F1s(results))
    ensures InUnitInterval(Bucket(results, c))
  {
    if |results| > 0 {
      var init := results[..|results| - 1];
      assert F1s(init) == F1s(results)[..|results| - 1];
      BucketInUnitInterval(init, c);
      assert 0.0 <= results[|results| - 1].metrics.f1 <= 1.0 by {
        assert F1s(results)[|results| - 1] == results[|results| - 1].metrics.f1;
      }
    }
  }

  /** by_category: each category's mean F1. */
  function CategoryMeans(categories: map<string, seq<real>>): map<string, real>
    requires forall c :: c in categories ==> |categories[c]| > 0
  {
    map c | c in categories :: Mean(categories[c])
  }

  /** The part of the report every evaluator writes: overall means and
      per-category mean F1. */
  datatype Summary = Summary(overall: Overall, byCategory: map<string, real>)

  /** The overall means and the per-category scores of a run the way
      analyze_results and both compare_results compute them. */
  method Summarize(results: seq<CaseResult>) returns (s: Summary)
    requires |results| > 0
    ensures s.overall == OverallMetrics(results)
    ensures s.byCategory.Keys == Categories(results)
    ensures forall c :: c in s.byCategory ==> |Bucket(results, c)| > 0 && s.byCategory[c] == Mean(Bucket(results, c))
  {
    var order, categories := GroupByCategory(results);
    var overall := Overall(Mean(Precisions(results)), Mean(Recalls(results)), Mean(F1s(results)));
    s := Summary(overall, CategoryMeans(categories));
  }

  /** For a run whose records carry their own metrics, every reported score
      lies in [0, 1], and the category buckets together hold every result once. */
  lemma SummaryInUnitInterval(results: seq<CaseResult>, order: seq<string>)
    requires |results| > 0 && Scored(results)
    requires NoDup(order) && Elements(order) == Categories(results)
    ensures var o := OverallMetrics(results);
            0.0 <= o.precision <= 1.0 && 0.0 <= o.recall <= 1.0 && 0.0 <= o.f1 <= 1.0
    ensures forall c :: c in Categories(results) ==>
              |Bucket(results, c)| > 0 && 0.0 <= Mean(Bucket(results, c)) <= 1.0
    ensures SizeSum(order, results) == |results|
  {
    forall i | 0 <= i < |results|
      ensures 0.0 <= results[i].metrics.precision <= 1.0
      ensures 0.0 <= results[i].metrics.recall <= 1.0
      ensures 0.0 <= results[i].metrics.f1 <= 1.0
    {
      assert SelfScored(results[i]);
      RatiosInUnitInterval(results[i].predicted, results[i].expected);
    }
    MeanInUnitInterval(Precisions(results));
    MeanInUnitInterval(Recalls(results));
    MeanInUnitInterval(F1s(results));
    forall c | c in Categories(results)
      ensures |Bucket(results, c)| > 0 && 0.0 <= Mean(Bucket(results, c)) <= 1.0
    {
      BucketEmptyIff(results, c);
      BucketInUnitInterval(results, c);
      MeanInUnitInterval(Bucket(results, c));
    }
    BucketSizesSum(order, results);
  }
}
