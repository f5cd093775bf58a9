# Multi-modal product RAG, modelled in Dafny

The system indexes a small product catalog twice. Each product's text
description goes into a text collection. A caption that a vision model writes
for the product photo goes into an image collection. Both collections live in
a vector store.

- **Queries:** a query is embedded and searched in both collections. A plain
  search copies every hit. A hybrid search first turns a metadata filter
  (`{"color": "red", "price": {"$lt": 300}}`) into the store's predicate tree,
  over-fetches 2n hits and keeps the first n.
- **Answers:** `answer_question` lays the top hits out as a context block and
  asks a chat model to answer from it.
- **Evaluation:** three scripts score labelled queries. They use the plain
  search (`eval.py`), hybrid search with hand-written filters
  (`eval_hybrid.py`), and an automatic-filter search (`eval_smart.py`).
  Each predicted list is `list(set(filenames))[:top_k]`, scored with
  set-based precision, recall and F1. Each script reports overall means and
  per-category mean F1. The hybrid and smart scripts also compare the mean
  F1 with fixed earlier scores.

The foreign services are parameters of the model, total functions from their
input to their output, with `None` standing for a call that raised:

- `embed: string -> Embedding` is the sentence embedder.
- `describe: string -> Option<string>` is the vision captioner.
- `store: Request -> Option<seq<StoreHit>>` is one vector-store query. It
  receives the collection, the query embedding, `n_results` and the where
  clause.
- `complete: ChatRequest -> Option<string>` is the chat model.
- `smartSearch: (string, int) -> Option<SearchResults>` is `smart_search`.
  The `MultiModalRAG` class of main.py, which eval_smart.py imports, defines
  no such method, so the model takes it as a parameter.

Modules:

- `Text` (common.dfy): decimal rendering of ids, `join`, distinctness and
  element sets.
- `RagTypes`: the records.
- `WhereClause`, `Indexing`, `Retrieval` and `Answering`: main.py.
- `Scoring`: `calculate_metrics`. The three copies, eval.py:83-113,
  eval_hybrid.py:60-80 and eval_smart.py:62-82, are the same code, so one
  definition models all of them.
- `Aggregation`: the predicted list, the per-case record, the means and the
  grouping that the three scripts share.
- `Eval`, `EvalHybrid` and `EvalSmart`: the three runs and reports.

Each source loop is a method proved against a specification function or
predicate. The properties the source promises are proved about those.

## Model

| member | source | states |
|---|---|---|
| WhereClause.Condition | main.py:204-210 | a dict value becomes a pass-through range condition on its key; any other value becomes an equality test on the key with that value |
| WhereClause.BuildWhereClause | main.py:200-216 | the loop's where clause equals the translation `WhereFor` of the filter |
| WhereClause.NoClauseIffNoFilter | main.py:201-202 | no where clause exactly when the filter is None or empty |
| WhereClause.ConditionsPerItem | main.py:203-210 | exactly one condition per filter key, in iteration order, a range for a dict value and an equality otherwise |
| WhereClause.ClauseShape | main.py:212-216 | one condition is returned bare; two or more are wrapped in a single `$and` with at least two clauses, none of them an `$and` |
| WhereClause.ElectronicsUnder300 | eval_hybrid.py:30 | the filter {"category": "electronics", "price": {"$lt": 300}} becomes `$and[{category: $eq electronics}, {price: {$lt: 300}}]` |
| EvalHybrid.EvalSetClauses | eval_hybrid.py:9-58 | the where clause each of the eight hybrid eval-set filters translates to; the filterless case sends none |
| Text.NatToString | main.py:99 | the rendering of i is a non-empty run of decimal digits with no leading zero, one digit exactly when i < 10 |
| Text.NatToStringInjective | main.py:99 | distinct indices render as distinct strings |
| Text.TaggedDistinct | main.py:115 | ids with the same prefix and distinct indices differ |
| Indexing.IndexData | main.py:72-135 | on success: one text and one image record per catalog entry in catalog order, text document "name - description - color - category", ids text_i / image_i, embeddings of the documents, the two metadata layouts, ids distinct; None exactly when some entry's image cannot be captioned |
| Indexing.TextBatchSnoc | main.py:93-106 | appending entry i's text record extends a text batch for the first i entries to one for i + 1 |
| Indexing.ImageBatchSnoc | main.py:108-120 | appending entry i's image record extends an image batch for the first i entries to one for i + 1 |
| Indexing.IdsDistinct | main.py:99-115 | text ids are pairwise distinct, image ids are pairwise distinct, and no text id is an image id |
| Indexing.RecordsIdentifyTheirItem | main.py:100-120 | records i of both batches name the filename of entry i, and with distinct catalog filenames no other entry's |
| Retrieval.CopyCount | main.py:227 | range(min(n, len)) has exactly min(n, len) elements for n > 0 (at most len, at most n) and none for n <= 0 |
| Retrieval.CopyHits | main.py:227-232 | the copy loop yields the first min(count, len) rows of the reply |
| Retrieval.Search | main.py:140-178 | the loop result equals `Searched`: a selected modality whose query raised fails the call, otherwise every row is copied |
| Retrieval.SearchCopiesEveryRow | main.py:157-176 | per selected modality as many entries as the store returned rows, entry i from row i; a modality that is off stays empty; None exactly when a selected query raised |
| Retrieval.HybridSearch | main.py:180-254 | the loop result equals `HybridSearched` over the where clause `WhereFor(filters)` |
| Retrieval.HybridKeepsPrefix | main.py:219-252 | each modality asks for 2n hits under `WhereFor(filters)` and keeps the first min(n, returned) rows in store order; a modality that is off or raised is empty |
| Retrieval.ModalitiesIndependent | main.py:219-252 | a modality's results depend only on the store's answer to that modality's request, so a text failure cannot change the image results and vice versa |
| Retrieval.NoMatchGivesEmpty | main.py:227-250 | a filter that matches no row gives an empty list, not a failure, for text and for images alike |
| Retrieval.TopKPrefix | main.py:223 | keeping n rows of the top 2n of a ranking is keeping the top n |
| Retrieval.HybridWithoutFilterIsSearch | main.py:219-252 | without a filter (None or an empty dict) and with a store that answers from one fixed ranking per collection, hybrid_search returns what search returns |
| Answering.BuildContextParts | main.py:262-270 | the lines appended to context_parts are `ContextLines` of the search results |
| Answering.ContextLinesLayout | main.py:264-270 | the context block is the text header, one "- document" bullet per text hit in rank order, the visual header, then one "- caption (from filename)" bullet per image hit |
| Answering.AnswerQuestion | main.py:256-295 | on success: the sources are the three-per-modality search, and the answer is the model's, asked "gpt-4o" with 500 tokens and the prompt built from the joined context block; None exactly when the search or the completion fails |
| Scoring.CountsPartition | eval.py:85-95 | tp + fp is the number of distinct predictions, tp + fn the number of distinct expected items, and tp + fp + fn the size of their union (also eval_hybrid.py:65-67) |
| Scoring.PrecisionRecallOfSets | eval.py:97-101 | precision is the shared fraction of the distinct predictions and recall of the distinct expected items, each 0 when its set is empty |
| Scoring.HarmonicMean | eval.py:103-104 | the harmonic mean of a/b and a/c is 2a/(b + c) |
| Scoring.F1FromCounts | eval.py:103-104 | F1 equals 2tp / (2tp + fp + fn), and 0 when tp = 0 |
| Scoring.FractionBound | eval.py:98 | a / (a + b) lies in [0, 1] |
| Scoring.RatiosInUnitInterval | eval_smart.py:71-73 | precision, recall and F1 all lie in [0, 1] (also eval.py:98-104, eval_hybrid.py:69-71) |
| Scoring.ZeroIffNoTruePositive | eval_hybrid.py:69-71 | F1, precision and recall are each 0 exactly when tp = 0 |
| Scoring.SetSemantics | eval_smart.py:64-65 | reordering or repeating the entries of either list leaves all six metrics unchanged (also eval.py:85-86) |
| Scoring.DuplicatePredictionIgnored | eval.py:85 | repeating an already predicted filename changes no metric |
| Aggregation.SliceTo | eval.py:142 | xs[:k] is a prefix of xs whose length follows Python's rules for negative k |
| Aggregation.Enumerate | eval.py:142 | list(s) lists each element of the set exactly once |
| Aggregation.PredictedList | eval.py:135-142 | the predicted list has no duplicates, draws only on result filenames, keeps min(top_k, distinct) of them, and all of them when they fit (also eval_hybrid.py:105-111, eval_smart.py:104-110) |
| Aggregation.PredictedBounds | eval_smart.py:104-110 | a predicted list has at most top_k entries, each a filename from the text or image results |
| Aggregation.ScoreCase | eval.py:135-157 | the appended record carries the case's labels, a predicted list as above, and calculate_metrics of its own lists |
| Aggregation.ScoredPrefixSnoc | eval.py:151-157 | appending the next case's record keeps every record scored against its own search |
| Aggregation.SumBounds | eval.py:168-170 | a sum of scores in [0, 1] lies between 0 and their number |
| Aggregation.MeanInUnitInterval | eval.py:189 | the mean of scores in [0, 1] lies in [0, 1] |
| Aggregation.CategoriesSnoc | eval.py:182-185 | appending a result adds exactly its category to the run's categories |
| Aggregation.BucketEmptyIff | eval.py:184-186 | a category's bucket is empty exactly when no result has that category |
| Aggregation.AddResult | eval.py:183-186 | one grouping step keeps the key order duplicate-free, the keys equal to the seen categories, and each list equal to its bucket; a new category is appended to the key order, a known one leaves it unchanged |
| Aggregation.FirstIndex | eval.py:182-185 | the position where a category first appears in the run: that record has the category, no earlier one does, and it lies inside the run exactly when the category occurs |
| Aggregation.FirstIndexSnoc | eval.py:182-185 | appending a record keeps the first position of every category already seen, and gives a new category the appended position |
| Aggregation.FirstAppearanceSnoc | eval.py:182-185 | one grouping step keeps the key order sorted by first appearance: a known category changes nothing, a new one goes last |
| Aggregation.GroupByCategory | eval.py:181-186 | keys in first-appearance order, no key twice, keys exactly the run's categories, each list the category's F1 scores in run order and non-empty (also eval_hybrid.py:157-162, eval_smart.py:156-161) |
| Aggregation.CountNoDup | eval.py:184 | in a duplicate-free key list every category occurs at most once |
| Aggregation.SizeSumSnoc | eval.py:186 | appending a result grows the bucket-size total by the times its category is listed |
| Aggregation.SizeSumEmpty | eval.py:181 | an empty run has bucket-size total 0 |
| Aggregation.BucketSizesSum | eval_hybrid.py:157-162 | over the distinct categories the bucket sizes add up to the number of results: each result is counted once |
| Aggregation.BucketInUnitInterval | eval.py:186 | a bucket of F1 scores in [0, 1] lies in [0, 1] |
| Aggregation.Summarize | eval.py:161-190 | overall precision, recall and F1 are the means over the results; by_category has exactly the run's categories, each mapped to the mean of its bucket (also eval.py:218, eval_hybrid.py:177, eval_smart.py:188) |
| Aggregation.SummaryInUnitInterval | eval.py:168-170 | for scored records the three overall means and every category mean lie in [0, 1], and the buckets hold every result once |
| Eval.SearchedPrefixSnoc | eval.py:132 | appending the next case's search keeps each entry the search of its own case |
| Eval.RunComplete | eval.py:123-159 | a finished run met no failing search, and gives each case its own record without filters |
| Eval.RunEvaluation | eval.py:115-159 | one record per case in order, scored from that case's top_k search with no filters; None exactly when some case's search raises |
| EvalHybrid.SearchedPrefixSnoc | eval_hybrid.py:102 | appending the next case's hybrid search keeps each entry the search of its own case |
| EvalHybrid.ScoredPrefixSnoc | eval_hybrid.py:120-127 | appending the next case's record keeps every record scored against its own search |
| EvalHybrid.RunComplete | eval_hybrid.py:90-129 | a finished run gives each case its own record and every record its own metrics |
| EvalHybrid.RunHybridCase | eval_hybrid.py:91-127 | one iteration scores the case's hybrid search under its own filter and records that filter |
| EvalHybrid.RunHybridEvaluation | eval_hybrid.py:82-129 | one record per case in order, scored from that case's filtered hybrid search; the run always completes |
| EvalHybrid.ImprovementRange | eval_hybrid.py:150 | the improvement is positive exactly when the mean F1 beats 0.59, zero exactly at 0.59, and within [-59, 41] points for a mean in [0, 1] |
| EvalHybrid.CompareResults | eval_hybrid.py:131-179 | overall means, per-category mean F1, and improvement_over_baseline = (mean F1 - 0.59) * 100 |
| EvalSmart.SearchedPrefixSnoc | eval_smart.py:101 | appending the next case's smart search keeps each entry the search of its own case |
| EvalSmart.RunComplete | eval_smart.py:92-128 | a finished run met no failing smart_search, and gives each case its own record with the reported filters |
| EvalSmart.RunSmartEvaluation | eval_smart.py:84-128 | one record per case in order, scored from smart_search's result and carrying the filters it reports; None exactly when some smart_search raises |
| EvalSmart.CompareResults | eval_smart.py:130-190 | overall means, per-category mean F1, and the progression (0.59, 0.86, mean F1) |

## Left out

- Embedding, vector-store ranking and filter evaluation, image captioning and
  chat completion (main.py:17-70, 275-290) are foreign services. They are
  function parameters, so the model says nothing about what they compute.
- `smart_search` (called at eval_smart.py:101) is not a method of main.py's
  `MultiModalRAG` (main.py:14-295), the class eval_smart.py:5 imports, so
  against this main.py the call would raise. It is the parameter
  `smartSearch`, and its filter extraction is not modelled.
- Where the source reads or writes files, the model takes values instead:
  the catalog JSON load (main.py:75-76), the base64 image read, and the result
  JSON dumps in all three scripts. The catalog is a parameter, and each report
  is a returned value.
- Console printing, percent formatting and the best/worst printout
  (eval.py:192-208) are output only.
- generate_data.py (downloads and a static product table) and test_visual.py
  (a demo script) are not part of this model.
- Python's set iteration order in `list(set(predicted))` is unspecified. The
  model picks an arbitrary order, so any order satisfies the contracts.
- Aggregation.Summarize: requires a non-empty run, so the ZeroDivisionError
  that analyze_results and compare_results raise on an empty run
  (eval.py:168-170, eval_hybrid.py:137-139, eval_smart.py:136-138) is not
  modelled. Every run in the scripts is over a fixed, non-empty case list.
  EvalHybrid.CompareResults and EvalSmart.CompareResults carry the same
  precondition.
- Ratios are exact reals. Float rounding is not modelled.
- The store's reply is a sequence of rows (id, document, metadata,
  distance), not ChromaDB's four parallel lists. This assumes the four lists
  have the same length.
- Retrieval.Search: an embedding failure is not modelled; `embed` is total.
- How the store treats a non-positive n_results is left to `store`. Such a
  request is passed on like any other.
- Indexing.IndexData: the two `add` calls are not modelled. The method
  returns the two batches they would receive.
- Aggregation.Summarize: Python's `sorted(categories.items())` only orders
  printing, so the model keeps no order over `by_category` beyond map keys.
- The eval sets' queries and expected filenames are not modelled. The
  hybrid set's filters are (EvalHybrid.EvalSetFilters).
- Eval.RunEvaluation: the record has a `filters` field eval.py does not
  write; it is always None there.
