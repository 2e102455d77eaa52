# Neural-sparse two-phase search, modelled in Dafny

This project models the two-phase ("high-weight tokens first, low-weight tokens later")
machinery of the neural-sparse query in the OpenSearch neural-search plugin, and proves
properties of that model. It covers five pieces:

- **Token split** (`token_split.dfy`, module `TokenSplit`). The query tokens are split at
  `max × prune_ratio`, where the running maximum starts at 0. The max loop is a method proved
  against a specification function. The partition is total: both parts always exist, and the
  source's null check never fires.
- **Request processor** (`two_phase_processor.dfy`, module `TwoPhaseProcessor`). This covers:
  - constructor validation and the factory defaults;
  - the recursive collector over bool `should` clauses;
  - merging the collected neural_sparse queries into one bool query, where each distinct
    query's boost is its own boost times the sum of the recorded boosts;
  - the product of the existing rescorers' query weights;
  - the window check, which fails when the window is outside `[0, max_window_size]`;
  - `processRequest` itself, over a `SearchSourceBuilder` object whose rescorer list it appends to.
- **Lucene-level rewrite** (`two_phase_util.dfy`, module `TwoPhaseUtil`). This covers:
  - the recursive walk over boost and scoring boolean clauses. It switches every reached
    `NeuralSparseQuery` to its high-token query and records each low-token query's weight;
    a later record overwrites an earlier one;
  - the shape of the resulting query;
  - the window clamp to 50;
  - the product over the query rescore contexts;
  - the maximum rescored score.
- **Admission queue** (`admission.dfy`, module `Admission`). This is the top-50 admission of
  `updateScore` over a `PriorityQueue<Float>`, represented by its contents in ascending order.
  It is proved to keep the largest `min(n, 50)` scores seen.
- **Query, weight and scorer objects** (`neural_sparse_query.dfy`, `neural_sparse_scoring.dfy`).
  This covers:
  - the mutable `currentQuery` slot of `NeuralSparseQuery`;
  - its equality, hash and rewrite;
  - the weight, which hands one queue to every scorer it creates;
  - the scorer, whose score is the high-token score in every run.

Three behaviours of the code are reproduced as written:

- **Low-token score.** The scorer's low-token branch requires a `lowScorerSupplier` that
  nothing ever sets, so the low-token score is never added.
- **setLow.** The weight's `setLow` flag is never set, so the low-token weight is recreated on
  every call.
- **Two merge and window policies.** The request processor sums the boosts of equal queries
  and fails on a bad window. The Lucene-level rewrite overwrites the weight of equal queries
  and clamps the window.

One queue belongs to the weight and is shared by the scorers of all segments; the model
follows this (`SparseScoring.ScoreInTurn`).

Lucene and OpenSearch code that is not part of this model appears as parameters:
- the inner weights' scorer suppliers and matches (`SparseScoring.Segments`);
- the inner queries' rewrite (a function argument);
- `QueryRescorer.rescore`;
- the window-size cluster setting.

## Model

| member | source | states |
|---|---|---|
| TokenSplit.ComputeMax | src/main/java/org/opensearch/neuralsearch/processor/NeuralSparseTwoPhaseProcessor.java:118-120 | the max loop's result is MaxWeight: the largest weight, or 0 when the map is empty or every weight is below 0 |
| TokenSplit.MaxWeightIsMax | src/main/java/org/opensearch/neuralsearch/processor/NeuralSparseTwoPhaseProcessor.java:118-120 | the maximum is at least 0, bounds every weight, and is either 0 or one of the weights |
| TokenSplit.MaxWeightUnique | src/main/java/org/opensearch/neuralsearch/processor/NeuralSparseTwoPhaseProcessor.java:118-120 | that characterisation determines the maximum uniquely |
| TokenSplit.Partition | src/main/java/org/opensearch/neuralsearch/processor/NeuralSparseTwoPhaseProcessor.java:123-127 | high and low have disjoint keys, together they are the input, high weights are >= the threshold and low weights are < it |
| TokenSplit.GetSplitByScoreThreshold | src/main/java/org/opensearch/neuralsearch/processor/NeuralSparseTwoPhaseProcessor.java:114-132 | the split is the partition at threshold max × ratio; it is total, so the null check at line 130 is never reached |
| TokenSplit.SplitIsPartition | src/main/java/org/opensearch/neuralsearch/processor/NeuralSparseTwoPhaseProcessor.java:123-131 | each token lands in exactly one part, with its own weight |
| TokenSplit.PartitionRespectsThreshold | src/main/java/org/opensearch/neuralsearch/processor/NeuralSparseTwoPhaseProcessor.java:126 | a token is high iff its weight is >= the threshold |
| TokenSplit.HighNonEmpty | src/main/java/org/opensearch/neuralsearch/processor/NeuralSparseTwoPhaseProcessor.java:118-130 | with a ratio in [0, 1] and at least one non-negative weight, the high part is non-empty |
| TokenSplit.EmptyInputSplitsEmpty | src/main/java/org/opensearch/neuralsearch/processor/NeuralSparseTwoPhaseProcessor.java:118-131 | an empty input gives two empty parts |
| TokenSplit.NegativeWeightsAllLow | src/main/java/org/opensearch/neuralsearch/processor/NeuralSparseTwoPhaseProcessor.java:118-127 | when every weight is negative, the maximum stays 0 and every token is low |
| TwoPhaseProcessor.NewProcessor | src/main/java/org/opensearch/neuralsearch/processor/NeuralSparseTwoPhaseProcessor.java:59-76 | construction succeeds iff ratio is in [0, 1], expansion_rate is >= 1 and max_window_size is >= 50, and then keeps the arguments; otherwise it fails with the first violated check, in source order |
| TwoPhaseProcessor.TruncateToInt | src/main/java/org/opensearch/neuralsearch/processor/NeuralSparseTwoPhaseProcessor.java:209 | the (int) cast truncates toward zero |
| TwoPhaseProcessor.FactoryDefaults | src/main/java/org/opensearch/neuralsearch/processor/NeuralSparseTwoPhaseProcessor.java:149-158 | with no settings the processor is enabled, with ratio 0.4, expansion 5.0 and max window 10000 |
| TwoPhaseProcessor.Create | src/main/java/org/opensearch/neuralsearch/processor/NeuralSparseTwoPhaseProcessor.java:140-162 | the factory succeeds iff the looked-up settings (each from two_phase_parameter when present, else its default; max_window_size truncated to int) pass the constructor's checks, and then yields exactly those settings; a bad ratio is reported first |
| TwoPhaseProcessor.FactoryOverridesOnlyPresentKeys | src/main/java/org/opensearch/neuralsearch/processor/NeuralSparseTwoPhaseProcessor.java:149-158 | each of enabled, prune_ratio, expansion_rate and max_window_size (truncated) comes from its key when present and from its default otherwise |
| TwoPhaseProcessor.FactoryIgnoresOtherKeys | src/main/java/org/opensearch/neuralsearch/processor/NeuralSparseTwoPhaseProcessor.java:155-158 | keys other than the three settings do not change the result |
| TwoPhaseProcessor.CollectNeuralSparseQueryBuilder | src/main/java/org/opensearch/neuralsearch/processor/NeuralSparseTwoPhaseProcessor.java:185-204 | the collector's puts are Collected: bool builders multiply the boost and descend only into `should` clauses, a neural_sparse leaf records base × leaf boost under its two-phase copy, and other builders record nothing |
| TwoPhaseProcessor.CollectedScales | src/main/java/org/opensearch/neuralsearch/processor/NeuralSparseTwoPhaseProcessor.java:188-199 | the starting boost is a factor of every recorded boost: collecting under `base` is collecting under 1 scaled by `base` |
| TwoPhaseProcessor.CollectedAllScales | src/main/java/org/opensearch/neuralsearch/processor/NeuralSparseTwoPhaseProcessor.java:190-194 | the same for a list of `should` clauses |
| TwoPhaseProcessor.GetNestedShouldClauses | src/main/java/org/opensearch/neuralsearch/processor/NeuralSparseTwoPhaseProcessor.java:165-175 | exactly one `should` clause per distinct key, none repeated, each with boost key boost × sum of the recorded boosts |
| TwoPhaseProcessor.BoostSumAppend | src/main/java/org/opensearch/neuralsearch/processor/NeuralSparseTwoPhaseProcessor.java:170 | the boost sum over puts made in two runs is the sum of the two runs' sums |
| TwoPhaseProcessor.SameContentTwiceMerges | src/main/java/org/opensearch/neuralsearch/processor/NeuralSparseTwoPhaseProcessor.java:169-172 | the same leaf (own boost b) reached through bool queries with boosts p1 and p2 becomes one clause with boost b × (p1 × b + p2 × b) |
| TwoPhaseProcessor.DistinctLeavesStaySeparate | src/main/java/org/opensearch/neuralsearch/processor/NeuralSparseTwoPhaseProcessor.java:169-172 | two leaves differing in content or in own boost are two keys, each giving its own clause from its own leaf only |
| TwoPhaseProcessor.WindowSize | src/main/java/org/opensearch/neuralsearch/processor/NeuralSparseTwoPhaseProcessor.java:209 | the window is the request size (10 when unset) times the expansion rate, truncated toward zero |
| TwoPhaseProcessor.CheckedWindowSize | src/main/java/org/opensearch/neuralsearch/processor/NeuralSparseTwoPhaseProcessor.java:208-220 | the window is trunc((size == -1 ? 10 : size) × expansion), and the call fails iff the window is < 0 or > max_window_size |
| TwoPhaseProcessor.WindowExamples | src/main/java/org/opensearch/neuralsearch/processor/NeuralSparseTwoPhaseProcessor.java:209-210 | size 10 or unset with expansion 5 gives 50, and a max window of 40 rejects it |
| TwoPhaseProcessor.WindowCoversRequest | src/main/java/org/opensearch/neuralsearch/processor/NeuralSparseTwoPhaseProcessor.java:209 | with expansion >= 1 the window is never smaller than the requested size |
| TwoPhaseProcessor.QueryWeightProduct | src/main/java/org/opensearch/neuralsearch/processor/NeuralSparseTwoPhaseProcessor.java:177-183 | with no rescorers the weight is 1; with one rescorer it is that rescorer's query weight |
| TwoPhaseProcessor.QueryWeightProductOfOnes | src/main/java/org/opensearch/neuralsearch/processor/NeuralSparseTwoPhaseProcessor.java:177-183 | rescorers whose query weights are all 1 give the product 1 |
| TwoPhaseProcessor.QueryWeightProductZero | src/main/java/org/opensearch/neuralsearch/processor/NeuralSparseTwoPhaseProcessor.java:177-183 | one rescorer with query weight 0 makes the product 0 |
| TwoPhaseProcessor.QueryWeightProductAppend | src/main/java/org/opensearch/neuralsearch/processor/NeuralSparseTwoPhaseProcessor.java:177-183 | the product of query weights over a concatenation is the product of the two products |
| TwoPhaseProcessor.ProcessRequest | src/main/java/org/opensearch/neuralsearch/processor/NeuralSparseTwoPhaseProcessor.java:85-101 | no change when disabled, when ratio is 0 or when nothing is collected; the window error leaves the rescorers unchanged; otherwise exactly one rescorer is appended, holding the merged clauses, with boost equal to the product of the earlier query weights, the checked window and query weight 1 |
| TwoPhaseProcessor.AppendedRescorerKeepsProduct | src/main/java/org/opensearch/neuralsearch/processor/NeuralSparseTwoPhaseProcessor.java:96-99 | the appended rescorer has query weight 1, so the product over all rescorers is unchanged |
| TwoPhaseProcessor.SearchSourceBuilder.AddRescorer | src/main/java/org/opensearch/neuralsearch/processor/NeuralSparseTwoPhaseProcessor.java:99 | the rescorer is appended after the existing ones |
| TwoPhaseUtil.PopulateQueryWeightsMap | src/main/java/org/opensearch/neuralsearch/search/util/NeuralSparseTwoPhaseUtil.java:39-53 | the map gains the puts of Visits (boost queries multiply the weight, only scoring boolean clauses are entered, a NeuralSparseQuery puts its low-token query), and every reached NeuralSparseQuery ends with currentQuery equal to its high-token query |
| TwoPhaseUtil.PutAllAppend | src/main/java/org/opensearch/neuralsearch/search/util/NeuralSparseTwoPhaseUtil.java:45-46 | putting two runs of visits is putting the first run, then the second |
| TwoPhaseUtil.PutAllLastWins | src/main/java/org/opensearch/neuralsearch/search/util/NeuralSparseTwoPhaseUtil.java:49 | a key's value is the weight of the last visit that put it |
| TwoPhaseUtil.PutAllKeys | src/main/java/org/opensearch/neuralsearch/search/util/NeuralSparseTwoPhaseUtil.java:49 | the keys are the earlier keys plus the visited low-token queries |
| TwoPhaseUtil.PutAllKeepsOthers | src/main/java/org/opensearch/neuralsearch/search/util/NeuralSparseTwoPhaseUtil.java:49 | keys that no visit puts keep their value |
| TwoPhaseUtil.VisitedNodesAreReached | src/main/java/org/opensearch/neuralsearch/search/util/NeuralSparseTwoPhaseUtil.java:40-51 | the nodes visited from any starting weight are exactly the reached nodes |
| TwoPhaseUtil.QueryWeightsKeys | src/main/java/org/opensearch/neuralsearch/search/util/NeuralSparseTwoPhaseUtil.java:39-53 | the map has one key per distinct low-token query of the reached nodes, and no other |
| TwoPhaseUtil.DuplicateLowQueryOverwrites | src/main/java/org/opensearch/neuralsearch/search/util/NeuralSparseTwoPhaseUtil.java:40-49 | two clauses with the same low-token query keep only the later weight, with no summing |
| TwoPhaseUtil.NonScoringClauseIgnored | src/main/java/org/opensearch/neuralsearch/search/util/NeuralSparseTwoPhaseUtil.java:44-47 | a FILTER or MUST_NOT clause adds no visit and reaches no node |
| TwoPhaseUtil.GetNestedTwoPhaseQuery | src/main/java/org/opensearch/neuralsearch/search/util/NeuralSparseTwoPhaseUtil.java:62-66 | a boolean query with exactly one SHOULD BoostQuery(key, weight) per map entry |
| TwoPhaseUtil.TwoPhaseQueryOf | src/main/java/org/opensearch/neuralsearch/search/util/NeuralSparseTwoPhaseUtil.java:74-79 | a single entry becomes BoostQuery(key, weight); several become the nested boolean query |
| TwoPhaseUtil.GetTwoPhaseQuery | src/main/java/org/opensearch/neuralsearch/search/util/NeuralSparseTwoPhaseUtil.java:90-103 | MatchNoDocsQuery when nothing is reached, otherwise the two-phase query of the populated map; reached queries are switched to their high-token part |
| TwoPhaseUtil.ClampWindowSize | src/main/java/org/opensearch/neuralsearch/search/util/NeuralSparseTwoPhaseUtil.java:80-83 | the window is in [0, 3000]; it equals the setting iff the setting is in range, and is 50 otherwise |
| TwoPhaseUtil.ClampIdempotent | src/main/java/org/opensearch/neuralsearch/search/util/NeuralSparseTwoPhaseUtil.java:80-83 | clamping twice is clamping once |
| TwoPhaseUtil.OriginQueryWeight | src/main/java/org/opensearch/neuralsearch/search/util/NeuralSparseTwoPhaseUtil.java:55-60 | with no contexts the weight is 1; a single context contributes its query weight if it is a QueryRescoreContext and 1 otherwise |
| TwoPhaseUtil.OriginQueryWeightOfOnes | src/main/java/org/opensearch/neuralsearch/search/util/NeuralSparseTwoPhaseUtil.java:55-60 | query rescore contexts whose query weights are all 1 give the product 1, whatever other contexts hold |
| TwoPhaseUtil.OriginQueryWeightZero | src/main/java/org/opensearch/neuralsearch/search/util/NeuralSparseTwoPhaseUtil.java:55-60 | one query rescore context with query weight 0 makes the product 0 |
| TwoPhaseUtil.OriginQueryWeightAppend | src/main/java/org/opensearch/neuralsearch/search/util/NeuralSparseTwoPhaseUtil.java:55-60 | the product over a concatenation of contexts is the product of the two products |
| TwoPhaseUtil.OtherContextsIgnored | src/main/java/org/opensearch/neuralsearch/search/util/NeuralSparseTwoPhaseUtil.java:57 | contexts other than QueryRescoreContext do not enter the product |
| TwoPhaseUtil.AddTwoPhaseNeuralSparseQuery | src/main/java/org/opensearch/neuralsearch/search/util/NeuralSparseTwoPhaseUtil.java:68-88 | no change when nothing is reached; otherwise one QueryRescoreContext is appended with the clamped window, the two-phase query and a rescore query weight equal to the product of the earlier query weights |
| TwoPhaseUtil.SearchContext.AddRescore | src/main/java/org/opensearch/neuralsearch/search/util/NeuralSparseTwoPhaseUtil.java:87 | the context is appended after the existing ones |
| TwoPhaseUtil.MaxScore | src/main/java/org/opensearch/neuralsearch/search/util/NeuralSparseTwoPhaseUtil.java:123-125 | 0 for no hits, otherwise a score that some hit has and that no hit exceeds |
| TwoPhaseUtil.GetRescoredTopDocsAndMaxScore | src/main/java/org/opensearch/neuralsearch/search/util/NeuralSparseTwoPhaseUtil.java:105-127 | the hits are the rescorer's output, with weight 1 and the raw setting, and the max score is their maximum, or 0 when there are none |
| Admission.InsertProperties | src/main/java/org/opensearch/neuralsearch/query/NeuralSparseScorer.java:63 | adding a score adds exactly one copy of it and keeps the contents ordered |
| Admission.Admit | src/main/java/org/opensearch/neuralsearch/query/NeuralSparseScorer.java:61-73 | the score is admitted iff the queue holds fewer than 50 or the score exceeds the minimum; a rejected score leaves the queue unchanged; the size never passes 50 and a full queue stays full |
| Admission.AdmitNotFullKeepsTopK | src/main/java/org/opensearch/neuralsearch/query/NeuralSparseScorer.java:62-64 | below capacity every score is kept, so the queue remains the top scores |
| Admission.AdmitReplaceKeepsTopK | src/main/java/org/opensearch/neuralsearch/query/NeuralSparseScorer.java:66-69 | a full queue swaps its minimum for a greater score and remains the top scores |
| Admission.AdmitRejectKeepsTopK | src/main/java/org/opensearch/neuralsearch/query/NeuralSparseScorer.java:70-71 | a rejected score leaves a queue that is still the top scores |
| Admission.AdmitKeepsTopK | src/main/java/org/opensearch/neuralsearch/query/NeuralSparseScorer.java:61-73 | one updateScore call keeps the queue the largest min(n, 50) scores seen |
| Admission.AdmitAllIsTopK | src/main/java/org/opensearch/neuralsearch/query/NeuralSparseScorer.java:61-73 | any sequence of calls keeps the queue the largest min(n, 50) scores seen |
| Admission.TopKFromEmpty | src/main/java/org/opensearch/neuralsearch/query/NeuralSparseScorer.java:61-73 | starting from the empty queue, it holds the largest min(n, 50) of the n scores offered, and at most 50 |
| Admission.FullQueueMinNeverDecreases | src/main/java/org/opensearch/neuralsearch/query/NeuralSparseScorer.java:66-71 | once the queue is full, it stays full and its minimum never decreases |
| Admission.ScoreQueue.constructor | src/main/java/org/opensearch/neuralsearch/query/NeuralSparseQueryWeight.java:41 | a new queue is empty |
| Admission.ScoreQueue.Size | src/main/java/org/opensearch/neuralsearch/query/NeuralSparseScorer.java:62 | the number of scores held |
| Admission.ScoreQueue.Peek | src/main/java/org/opensearch/neuralsearch/query/NeuralSparseScorer.java:66 | the least score held, or null when empty |
| Admission.ScoreQueue.Poll | src/main/java/org/opensearch/neuralsearch/query/NeuralSparseScorer.java:67 | removes and returns the least score |
| Admission.ScoreQueue.Add | src/main/java/org/opensearch/neuralsearch/query/NeuralSparseScorer.java:63 | inserts the score at its place in the order |
| SparseScoring.LeafScorer.Get | src/main/java/org/opensearch/neuralsearch/query/NeuralSparseScorer.java:27 | the high-token scorer reports what its supplier describes |
| SparseScoring.NeuralSparseQueryWeight.constructor | src/main/java/org/opensearch/neuralsearch/query/NeuralSparseQueryWeight.java:37-62 | keeps the arguments, starts with setLow false and no low weight or context, and owns a fresh empty queue |
| SparseScoring.NeuralSparseQueryWeight.Scorer | src/main/java/org/opensearch/neuralsearch/query/NeuralSparseQueryWeight.java:70-77 | records the context; returns null iff the high-token weight has no scorer supplier there; otherwise returns a fresh scorer over that supplier that shares this weight's queue |
| SparseScoring.NeuralSparseQueryWeight.IsCacheable | src/main/java/org/opensearch/neuralsearch/query/NeuralSparseQueryWeight.java:80-83 | never cacheable |
| SparseScoring.NeuralSparseQueryWeight.MatchesAt | src/main/java/org/opensearch/neuralsearch/query/NeuralSparseQueryWeight.java:86-88 | the high-token weight's matches |
| SparseScoring.NeuralSparseQueryWeight.GetLowTokenSS | src/main/java/org/opensearch/neuralsearch/query/NeuralSparseQueryWeight.java:90-95 | the low weight is (re)created from lowQuery with the stored searcher, score mode and boost, and asked for a supplier on the recorded context |
| SparseScoring.NeuralSparseScorer.constructor | src/main/java/org/opensearch/neuralsearch/query/NeuralSparseScorer.java:24-30 | gets the high-token scorer from its supplier, takes its iterator, keeps the given queue, and leaves lowScorerSupplier null |
| SparseScoring.NeuralSparseScorer.DocID | src/main/java/org/opensearch/neuralsearch/query/NeuralSparseScorer.java:33-35 | the high-token scorer's document |
| SparseScoring.NeuralSparseScorer.Iterator | src/main/java/org/opensearch/neuralsearch/query/NeuralSparseScorer.java:52-54 | the iterator taken from the high-token scorer |
| SparseScoring.NeuralSparseScorer.GetMaxScore | src/main/java/org/opensearch/neuralsearch/query/NeuralSparseScorer.java:57-59 | the high-token scorer's maximum score |
| SparseScoring.NeuralSparseScorer.TwoPhaseIterator | src/main/java/org/opensearch/neuralsearch/query/NeuralSparseScorer.java:76-78 | the high-token scorer's two-phase iterator |
| SparseScoring.NeuralSparseScorer.AdvanceShallow | src/main/java/org/opensearch/neuralsearch/query/NeuralSparseScorer.java:80-82 | the high-token scorer's answer |
| SparseScoring.NeuralSparseScorer.UpdateScore | src/main/java/org/opensearch/neuralsearch/query/NeuralSparseScorer.java:61-73 | the result and the new queue are exactly Admit on the old queue |
| SparseScoring.NeuralSparseScorer.Score | src/main/java/org/opensearch/neuralsearch/query/NeuralSparseScorer.java:38-49 | the queue sees the high-token score once; with lowScorerSupplier null (always) the result is the high-token score and nothing else changes |
| SparseScoring.ScoreInTurn | src/main/java/org/opensearch/neuralsearch/query/NeuralSparseQueryWeight.java:70-77 | scoring through scorers of one weight, in any order of segments, returns the high-token scores and runs all of them through the one shared queue |
| SparseQuery.Wrap32 | src/main/java/org/opensearch/neuralsearch/query/NeuralSparseQuery.java:69 | Java int arithmetic: the result is in the 32-bit range and congruent to the exact value |
| SparseQuery.NeuralSparseQuery.constructor | src/main/java/org/opensearch/neuralsearch/query/NeuralSparseQuery.java:24-32 | the all-arguments constructor keeps its arguments |
| SparseQuery.NeuralSparseQuery.ExtractLowScoreToken | src/main/java/org/opensearch/neuralsearch/query/NeuralSparseQuery.java:78-80 | currentQuery becomes the high-token query, and only that field changes |
| SparseQuery.NeuralSparseQuery.HashCode | src/main/java/org/opensearch/neuralsearch/query/NeuralSparseQuery.java:67-71 | the hash is a 32-bit value computed from the class hash and the hashes of the high and low parts |
| SparseQuery.NeuralSparseQuery.CreateWeight | src/main/java/org/opensearch/neuralsearch/query/NeuralSparseQuery.java:74-76 | the weight is whatever currentQuery holds at the time, created with the same searcher, score mode and boost |
| SparseQuery.NeuralSparseQuery.Rewrite | src/main/java/org/opensearch/neuralsearch/query/NeuralSparseQuery.java:39-47 | returns this query when the high and low rewrites are unchanged, even if currentQuery changed; otherwise a fresh query of the rewritten parts with the same window size |
| SparseQuery.NeuralSparseQuery.Equals | src/main/java/org/opensearch/neuralsearch/query/NeuralSparseQuery.java:57-59 | equals holds iff the other query is a NeuralSparseQuery with equal high and low parts |
| SparseQuery.NeuralSparseQuery.EqualsTo | src/main/java/org/opensearch/neuralsearch/query/NeuralSparseQuery.java:61-64 | equalsTo holds iff the high parts and the low parts are equal |
| SparseQuery.EqualsIsEquivalence | src/main/java/org/opensearch/neuralsearch/query/NeuralSparseQuery.java:57-64 | equals is reflexive, symmetric and transitive |
| SparseQuery.EqualsIgnoresCurrentQuery | src/main/java/org/opensearch/neuralsearch/query/NeuralSparseQuery.java:57-64 | two queries are equal iff their high and low parts are equal; currentQuery and the window size do not count |
| SparseQuery.NotEqualToOtherKinds | src/main/java/org/opensearch/neuralsearch/query/NeuralSparseQuery.java:58 | no query of another class equals a NeuralSparseQuery |
| SparseQuery.EqualQueriesHashEqually | src/main/java/org/opensearch/neuralsearch/query/NeuralSparseQuery.java:57-71 | equal queries have equal hash codes |
| SparseQuery.HashCodeSymmetric | src/main/java/org/opensearch/neuralsearch/query/NeuralSparseQuery.java:69 | swapping the high and low parts keeps the hash code |
| SparseQuery.ExtractThenCreateWeight | src/main/java/org/opensearch/neuralsearch/query/NeuralSparseQuery.java:74-80 | after extractLowScoreToken, createWeight builds the high-token query's weight |

## Left out

- Lucene and OpenSearch internals: postings, the inner queries' createWeight and rewrite,
  ScorerSupplier.get, QueryRescorer.rescore, Matches and QueryVisitor. These become
  parameters or opaque datatypes. `explain`, `toString` and `visit` have no logic to model and
  are not modelled.
- Floating point: weights, boosts, ratios and scores are reals. IEEE rounding is not modelled,
  and neither is the dependence of float sums and products on their order. NaN settings pass
  Java's range checks, but reals have no NaN.
- TwoPhaseProcessor.TruncateToInt: does not model the saturation of Java's (int) cast at the
  32-bit bounds. With max_window_size at the largest int, an overflowing window is accepted in
  Java and rejected in the model.
- TwoPhaseProcessor.Create: the parsing done by ConfigurationUtils (reading `enabled`, and
  setting values that are not numbers) is not modelled. The tag, description and
  ignoreFailure arguments are not modelled either.
- NeuralSparseQueryBuilder is not part of this model. getCopyNeuralSparseQueryBuilderForTwoPhase
  is assumed to have no side effects and to give the copy the leaf's field, tokens and own boost,
  together with the prune ratio. Query-builder equality compares the boost, so the multimap key
  is content, ratio and own boost. Leaves that differ only in their own boost therefore stay
  separate, and a leaf's boost enters both the key boost and the recorded boost.
- TwoPhaseProcessor.ProcessRequest: only QueryRescorerBuilder rescorers are modelled. Any other
  rescorer makes Java throw ClassCastException. A null rescorer list is the empty sequence. The
  bool builder's must, filter and must_not clauses are omitted, because the collector never
  reads them.
- Iteration order of HashMap and of the multimap's key view: chosen arbitrarily. Every property
  holds whichever order is taken.
- The HashMap that populateQueryWeightsMap fills in place is passed through as a value.
  Lucene's query equality is the datatype's equality, except that NeuralSparseQuery nodes are
  objects compared by identity.
- SparseQuery.NeuralSparseQuery.Rewrite: Java tests the rewritten parts by reference (==); the
  model compares values.
- SparseQuery.NeuralSparseQuery.HashCode: classHash and Objects.hashCode are parameters.
- SparseScoring.NeuralSparseScorer.Score: in the unreachable branch with a non-null
  lowScorerSupplier, a null supplier returned by getLowTokenSS would throw
  NullPointerException in Java; the model adds nothing. The `highScorer != null` check is
  always true, because the constructor has already dereferenced the scorer, so the return of 0
  is not modelled.
- The Lombok-generated setters of NeuralSparseQueryWeight are not modelled. No code in the
  core calls them, so the weight's invariant `!setLow` holds.
- Lucene's limit of 1024 clauses per BooleanQuery and BoostQuery's check that its boost is
  finite and non-negative are not modelled. Both throw from Lucene constructors outside the core.
- The PriorityQueue's heap layout is not modelled; only its contents are, in ascending order.
- Concurrency: segments may be scored by several threads over the same queue, which is not
  thread-safe. The model scores in sequence.
- The window-size cluster setting (ClusterService, `initialize`) and the IOException wrapping
  in getRescoredTopDocsAndMaxScore are configuration and exception plumbing. The setting is a
  parameter.
