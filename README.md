# Index selection evaluation, modelled in Dafny

This project models the core of an index selection evaluation platform. The platform decides which secondary indexes a SQL workload should get under a storage budget. It uses the query optimizer of a database as an oracle: indexes are simulated as hypothetical ("what-if") indexes and never built.

The model covers these parts of the repository:

- **Schema and workload**: columns, tables, queries and workloads, their indexable columns, and the `Index` value with its ordering, width, prefix and extension relations.
- **What-if layer and cost evaluation**:
  - The what-if layer keeps the simulated indexes and their names on a connector.
  - The cost evaluation keeps the current configuration in step with the one requested, caches each query's cost under the indexes relevant to it, and cleans up every simulation when it completes.
  - The connector is a class whose hypothetical index set and statement log the methods change.
  - The plan costs come from an oracle parameter.
- **Selection algorithms**: the base class (run-once, default parameters) and the algorithms that run on top of the cost evaluation:
  - the drop heuristic;
  - the AutoAdmin/Microsoft greedy enumeration with multi-column candidates;
  - relaxation;
  - the DB2/IBM benefit-per-size advisor, with its benefit helpers;
  - DTA anytime;
  - EPIC;
  - Dexter;
  - the CoPhy input generators and the ILP result reader.
- **Candidate generation**: candidate index selection, configuration enumeration and multi-column index generation.
- **Tooling**:
  - workload parsing, query generation and table generation;
  - the parameter-range driver;
  - the parsers for benchmark results (normal runs and AMPL/CoPhy runs);
  - combining CoPhy inputs;
  - result analysis, plot helpers, statistics budgets and solver automation.

The modelling follows each source file's own form:

- Code that updates objects in place becomes a class with `modifies` and `reads` frames. Examples are the connector, the what-if layer, the cost evaluation, the selection base class, the multi-column generator and the plot helper.
- Loops become methods with invariants. Each is proved against a specification function or against the property the source promises.
- Pure computations become functions, with lemmas that state their meaning. These include the shape and bounds of each selection result, round trips through renderings and parsers, and the invariants that each loop preserves.

Where the code fails as written (a missing attribute, a call with the wrong number of arguments), the model keeps an as-written member that exhibits the failure, except where the Left out section says otherwise. Next to it is the evidently intended member, which the rest of the model uses; see the Findings section.

`Workload` (selection/workload.py:4-13) has no `potential_indexes()` method, although drop_heuristic_algorithm.py:24 and microsoft_algorithm.py:36 call one. The model uses the base class's `potential_indexes(workload)` there (`SelectionAlgorithms.PotentialIndexes`).

## Model

| member | source | states |
|---|---|---|
| Indexes.NewIndex | selection/index.py:2-10 | an index over zero columns is a ValueError; any other column list is accepted and kept as it is |
| Indexes.ColumnFlags | selection/index.py:5-9 | `multicolumn` holds exactly when there is more than one column, `singlecolumn` exactly when there is one, and the two flags are opposite |
| Indexes.IndexObject.constructor | selection/index.py:10-13 | a fresh index object holds its columns and has no estimated size, no hypothetical-index name and no oid |
| Indexes.JoinedColumnNamesSplit | selection/index.py:30-39 | `joined_column_names` lists the column names in index order: splitting it on ',' gives them back when no name holds a comma |
| Indexes.IndexIdxShape | selection/index.py:33-36 | `index_idx` starts with the table and '_', ends with '_idx', and its middle splits on '_' into the column names when no name holds '_' |
| Indexes.AddSubsumesLeft | selection/index.py:19-20 | `a + b` has the columns of `a` followed by those of `b`, stays on the table of `a` and subsumes `a` |
| Indexes.SubsumesOrder | tests/test_index.py:130-149 | `subsumes` (the other index's columns are a prefix) is reflexive, transitive and antisymmetric |
| Indexes.AppendableByMeansCleanExtension | selection/index.py:41-46 | for an index on one table without repeated columns, `appendable_by(b)` holds exactly when `b` has one column and `a + b` is again on one table without repeated columns |
| Indexes.IndexLeIsTotal | selection/index.py:16-17 | the order `sorted` derives from `__lt__` on the list text is total |
| Indexes.SortIndexes | selection/index.py:16-17 | `sorted(indexes)` is a permutation of its input, ordered by the text of the column lists |
| Indexes.TupleIndexLeIsTotal | selection/index.py:16-17 | the order `sorted` derives from `__lt__` on the tuple text is total |
| Indexes.SortTupleIndexes | selection/algorithms/cophy_algorithm.py:38-67 | `sorted` over indexes built from `itertools.permutations` tuples is a permutation of its input, ordered by the tuple text |
| Indexes.TupleOrderIsNotListOrder | selection/index.py:16-17 | the tuple text and the list text order the columns `t.a` and `t.a1` oppositely |
| Indexes.SingleColumnRenderings | selection/index.py:16-17 | a one-column list renders as `[C t.c]` and a one-column tuple as `(C t.c,)` |
| Schema.NewColumn | selection/workload.py:17-19 | a column stores its name lower-cased, with the same length, and refers to its table |
| Schema.NewTable | selection/workload.py:30-32 | a table stores its name lower-cased and starts with no columns |
| Schema.ColumnLtByNameOnly | selection/workload.py:22-23 | the column order compares names only: equal names are never ordered, and different names always are, one way |
| Workloads.NewQuery | selection/workload.py:39-43 | a query keeps its id, stores its text lower-cased and starts with no columns |
| Workloads.SingleColumnIndex | selection/workload.py:20 | every column carries a valid single-column index over itself, on its own table |
| Workloads.AllColumnsReferenced | selection/workload.py:10-12 | the columns the loop of `indexable_columns` collects are exactly those some query references |
| Workloads.IndexableColumns | selection/workload.py:9-13 | `indexable_columns` holds every referenced column, nothing else, each once |
| Common.Lower | selection/workload.py:18 | lower-casing keeps the length, maps each capital letter to its small letter and leaves every other character alone |
| Common.LowerIdempotent | selection/workload.py:18 | lower-casing twice is lower-casing once |
| Database.DropStatementInjective | selection/what_if_index_creation.py:28-30 | the drop statement `select * from hypopg_drop_index(<oid>)` names its oid: different oids give different statements |
| Database.SizeStatementInjective | selection/what_if_index_creation.py:32-34 | the size statement `select hypopg_relation_size(<oid>)` names its oid: different oids give different statements |
| Database.WithoutDroppedIsRemoval | selection/what_if_index_creation.py:28-30 | executing the drop statement of an oid removes exactly that hypothetical index |
| Database.Connector.constructor | selection/database_connector.py:5-8 | a fresh connector holds no hypothetical index and has issued no statement and costed no query |
| Database.Connector.SimulateIndex | selection/dbms/postgres_dbms.py:85-93 | hypopg creates the index under a fresh oid and returns that oid with the index's name |
| Database.Connector.ExecOnly | selection/database_connector.py:10-11 | the statement is logged; a drop statement removes the index it names and nothing else |
| Database.Connector.ExecFetchSize | selection/database_connector.py:13-17 | the size query's row holds the estimated size of the hypothetical index |
| Database.Connector.GetCost | selection/dbms/postgres_dbms.py:150-155 | the cost is the optimiser's estimate under exactly the hypothetical indexes present, and the query is logged |
| Database.Connector.GetPlan | selection/dbms/postgres_dbms.py:165-170 | the plan under the current hypothetical indexes, with its total cost equal to the optimiser's estimate |
| WhatIf.DropStatements | selection/what_if_index_creation.py:49-51 | one drop statement per oid, in order |
| WhatIf.WhatIfIndexCreation.constructor | selection/what_if_index_creation.py:6-10 | a new bookkeeper tracks no simulated index |
| WhatIf.WhatIfIndexCreation.SimulateIndex | selection/what_if_index_creation.py:12-21 | the returned fresh oid is mapped to the returned name, the index object is stamped with both, and its size is fetched exactly when `store_size` is set, otherwise left as it was |
| WhatIf.WhatIfIndexCreation.StoreEstimatedSize | selection/what_if_index_creation.py:32-35 | one size query is issued and its answer becomes the index's estimated size |
| WhatIf.WhatIfIndexCreation.DropIndexById | selection/what_if_index_creation.py:28-30 | one drop statement for the oid, which removes that hypothetical index only |
| WhatIf.WhatIfIndexCreation.DropSimulatedIndex | selection/what_if_index_creation.py:23-26 | an index never simulated has no oid (AttributeError), an untracked oid fails the `del` (KeyError) and changes nothing; otherwise exactly that entry goes and one drop is issued |
| WhatIf.WhatIfIndexCreation.DropAllSimulatedIndexes | selection/what_if_index_creation.py:49-52 | one drop per tracked oid in insertion order, then an empty map; nothing is issued when the map is empty |
| CostEvaluations.RelevantUnsorted | selection/cost_evaluation.py:33-35 | the relevant indexes are exactly the given ones sharing a column with the query, taken from the given ones |
| CostEvaluations.RelevantIndexesExactly | selection/cost_evaluation.py:33-37 | after `sorted`, the relevant indexes are still exactly those sharing a column with the query, now in index order |
| CostEvaluations.Lookup | selection/cost_evaluation.py:40-41 | the stored entry found has exactly the given relevant indexes, and none is found only when no entry has them |
| CostEvaluations.CostLoopNext | selection/cost_evaluation.py:30-55 | the query loop over one more query adds that query's pruned or unpruned cost and cache update |
| CostEvaluations.UnprunedCost | selection/cost_evaluation.py:30-55 | without pruning every query is sent to the database once, the total is the workload cost and the cache is untouched |
| CostEvaluations.PruneStepSound | selection/cost_evaluation.py:32-53 | one pruned query evaluation gives the database's cost and keeps every stored cost the database's answer for its relevant indexes |
| CostEvaluations.PrunedCostAgrees | selection/cost_evaluation.py:30-58 | when a query's cost depends only on its relevant indexes, the pruned total equals the unpruned workload cost and the cache stays sound |
| CostEvaluations.PruneStepHit | selection/cost_evaluation.py:38-44 | a stored non-zero cost for the same relevant indexes is reused, one hit is counted and the database is not asked |
| CostEvaluations.PruneStepZeroIsRequeried | selection/cost_evaluation.py:42-53 | a stored cost of 0 counts as a hit, is falsy for `not cost`, so the database is asked again and a miss counted, with no new entry |
| CostEvaluations.PruneStepMiss | selection/cost_evaluation.py:45-53 | a miss asks the database, counts one miss and appends `(cost, relevant)` to the query's list |
| CostEvaluations.CostLoopCounts | selection/cost_evaluation.py:38-53 | with pruning, the misses grow by exactly the number of database requests, at most one per query, and the hits never shrink |
| CostEvaluations.CostEvaluation.constructor | selection/cost_evaluation.py:6-14 | a new evaluation has its mode, no pruning, `pruning_hits == [0, 0]` and no stored costs |
| CostEvaluations.CostEvaluation.ResetPruning | selection/cost_evaluation.py:16-19 | pruning on, both counters 0 and no stored costs; the mode is unchanged |
| CostEvaluations.CostEvaluation.PrepareCostCalculation | selection/cost_evaluation.py:64-67 | only the 'whatif' mode simulates: every given index once, in order; any other mode changes nothing |
| CostEvaluations.CostEvaluation.CompleteCostEstimation | selection/cost_evaluation.py:69-70 | every tracked simulation is dropped, one statement each, and the tracking map is empty |
| CostEvaluations.CostEvaluation.QueryCost | selection/cost_evaluation.py:31-53 | one query's cost and cache update are those of the pruned or unpruned step on the database's answer |
| CostEvaluations.CostEvaluation.EvaluateQueries | selection/cost_evaluation.py:25-55 | the running total and the cache are those of the query loop over the whole workload |
| CostEvaluations.CostEvaluation.CalculateCost | selection/cost_evaluation.py:21-58 | the total is the query loop's sum with the simulated indexes present, simulating the given ones first and dropping all tracked simulations afterwards only when `simulate` is set |
| SelectionAlgorithms.FillDefaults | selection/selection_algorithm.py:10-16 | missing parameters (`None` or empty) start from {}; afterwards every default key is present, supplied keys keep their values and no key is removed or added beyond the defaults |
| SelectionAlgorithms.FilledStep | selection/selection_algorithm.py:14-16 | one more default key is added when missing and otherwise left alone |
| SelectionAlgorithms.EstimationMode | selection/selection_algorithm.py:21-23 | a text 'cost_estimation' parameter becomes the mode; only the text 'whatif' gives the what-if mode |
| SelectionAlgorithms.PotentialIndexes | selection/selection_algorithm.py:52-53 | exactly one single-column index per indexable column, no duplicates |
| SelectionAlgorithms.NoIndexAlgorithmIndexes | selection/selection_algorithm.py:60-61 | `NoIndexAlgorithm` recommends nothing |
| SelectionAlgorithms.AllIndexesAlgorithmIndexes | selection/selection_algorithm.py:69-70 | `AllIndexesAlgorithm` recommends the potential indexes: one single-column index per indexable column |
| SelectionAlgorithms.SelectionAlgorithm.constructor | selection/selection_algorithm.py:7-23 | the parameters are the given ones with the defaults filled in, `did_run` is false, and the cost evaluation is new, in the mode a 'cost_estimation' parameter names or else what-if |
| SelectionAlgorithms.SelectionAlgorithm.CalculateBestIndexesAsWritten | selection/selection_algorithm.py:25-41 | a second run fails the run-once assertion; `did_run` is set before the body; a failing body's error is returned; a succeeding body ends in AttributeError at `cost_evaluation.cache_hits` |
| SelectionAlgorithms.SelectionAlgorithm.CalculateBestIndexes | selection/selection_algorithm.py:25-33 | as intended: a second run fails the assertion; `did_run` is set even when the body fails; after the body every tracked simulation is dropped and the body's indexes are returned |
| SelectionUtils.StorageConversionsInverse | selection/utils.py:4-14 | `b_to_mb` and `mb_to_b` are inverse, one MB is a million bytes, one second a thousand milliseconds, and 17000000 bytes are 17 MB (see also tests/test_selection_utils.py:22-38) |
| SelectionUtils.OnTable | selection/utils.py:20-27 | the indexes kept for a table are input indexes on that table |
| SelectionUtils.IndexesByTable | selection/utils.py:20-29 | the keys are exactly the tables of the input indexes, and each table's list holds its indexes in input order |
| SelectionUtils.GroupNext | selection/utils.py:22-27 | one loop turn puts the next index at the end of its table's list, creating the list when the table is new |
| SelectionUtils.OnTableAbsent | tests/test_selection_utils.py:41-43 | a table with no index gets an empty list, so an empty input gives an empty map |
| SelectionUtils.OnTablePartition | tests/test_selection_utils.py:45-54 | each index is in its own table's list exactly as often as in the input |
| DropHeuristic.DefaultParameters | selection/algorithms/drop_heuristic_algorithm.py:5 | the defaults are `max_indexes` 15 and the what-if cost estimation, and nothing else |
| DropHeuristic.DropCosts | selection/algorithms/drop_heuristic_algorithm.py:30-33 | the inner loop costs, for each remaining index in turn, the workload under all remaining indexes but that one |
| DropHeuristic.DropChoice | selection/algorithms/drop_heuristic_algorithm.py:28-35 | the index the inner loop picks is one of the remaining ones |
| DropHeuristic.IndexToDrop | selection/algorithms/drop_heuristic_algorithm.py:28-35 | the inner `for` loop with its running minimum picks the index `DropChoice` describes |
| DropHeuristic.DropHeuristicIndexes | selection/algorithms/drop_heuristic_algorithm.py:16-44 | `max_indexes` below 1 fails the assertion; otherwise the chosen index is dropped until at most `max_indexes` remain |
| DropHeuristic.CalculateBestIndexes | selection/algorithms/drop_heuristic_algorithm.py:16-44 | fails exactly when `max_indexes < 1`; otherwise the result holds no duplicate, at most `max_indexes` single-column indexes over columns the workload references |
| DropHeuristic.DropRunShape | selection/algorithms/drop_heuristic_algorithm.py:24-36 | over repetition-free potential indexes, the result repeats nothing, is a subsequence of the input, has exactly min(number of potential indexes, `max_indexes`) elements, and is the input itself when nothing has to be dropped (see also tests/test_selection.py:50-54) |
| DropHeuristic.DropChoiceIsCheapest | selection/algorithms/drop_heuristic_algorithm.py:30-36 | each round drops an index whose removal is cheapest, the first such in iteration order, as long as no single drop costs exactly 0 |
| Search.RunningMin | selection/algorithms/microsoft_algorithm.py:118-141 | scanning costs with the running-minimum guard finds nothing only on an empty input, and otherwise a position holding its cost |
| Search.RunningMinIsFirstMinimum | selection/algorithms/microsoft_algorithm.py:118-120 | unless a cost of 0 shows up under the falsy guard, the scan picks the first position of the minimum: no cost is lower and every earlier one is higher |
| Search.RunningMinZeroIsReplaced | selection/algorithms/microsoft_algorithm.py:118 | under `not lowest_cost or cost < lowest_cost` a best cost of 0 is given up for a later, higher cost; under `is None` it is kept |
| Search.RunningMinStep | selection/algorithms/microsoft_algorithm.py:138-141 | the scan over one more cost is one more guarded step |
| Search.Combinations | selection/algorithms/microsoft_algorithm.py:114-116 | `itertools.combinations(s, k)` yields selections of exactly k elements |
| Search.CombinationsAreSubsequences | selection/algorithms/microsoft_algorithm.py:114-116 | every combination is a k-element subsequence of the input |
| Search.CombinationMember | selection/algorithms/microsoft_algorithm.py:114-116 | one combination is a k-element subsequence of the input |
| Search.CombinationsCount | selection/algorithms/microsoft_algorithm.py:114-116 | there are exactly binomial(n, k) combinations |
| Search.Permutations | selection/algorithms/cophy_algorithm.py:38-39 | `itertools.permutations(s, k)` yields orderings of exactly k elements |
| Search.PermutationsCount | selection/algorithms/cophy_algorithm.py:38-39 | there are exactly n (n-1) ... (n-k+1) permutations |
| Search.PermutationsSound | selection/algorithms/cophy_algorithm.py:38-39 | over distinct elements every permutation repeats nothing and uses only input elements |
| Search.PermutationsDistinct | selection/algorithms/cophy_algorithm.py:38-39 | over distinct elements no permutation is listed twice |
| Search.PermutationsComplete | selection/algorithms/cophy_algorithm.py:38-39 | every repetition-free k-length sequence over the input is one of its permutations |
| Search.RemoveAtShape | selection/algorithms/drop_heuristic_algorithm.py:36 | removing one element of a repetition-free sequence removes exactly it and keeps the order of the rest |
| Search.SubsequenceTransitive | selection/algorithms/drop_heuristic_algorithm.py:26-36 | a subsequence of a subsequence is a subsequence |
| Search.CombinationRoundsShape | selection/algorithms/microsoft_algorithm.py:113-116 | every trial of the nested size loops is a subsequence of the input whose size is in the scanned range |
| Search.CombinationRoundsEmpty | selection/algorithms/microsoft_algorithm.py:113-116 | some combination is tried exactly when the range is non-empty and its smallest size fits the input |
| Search.TrialCosts | selection/algorithms/microsoft_algorithm.py:117 | each trial is costed as the set of its indexes |
| Search.ScanRound | selection/algorithms/microsoft_algorithm.py:114-120 | one inner round appends its combinations to the trials and keeps the running minimum over all trials so far |
| Search.ScanCombinations | selection/algorithms/microsoft_algorithm.py:113-120 | the nested loops cost every combination of the scanned sizes, in order, and keep the running minimum under the falsy guard |
| Search.AdditionCosts | selection/algorithms/microsoft_algorithm.py:138-139 | each candidate is costed together with the current indexes |
| Search.Fitting | selection/algorithms/dta_anytime_algorithm.py:136-142 | the candidates a greedy step may add are exactly those the fit test lets through |
| Search.AdditionTurn | selection/algorithms/microsoft_algorithm.py:138-141 | one inner turn costs a fitting candidate and makes it the best when it improves on it, skipping candidates that do not fit |
| Search.ScanAdditions | selection/algorithms/microsoft_algorithm.py:138-141 | the inner loop of a greedy step keeps the running minimum, under `best is None or cost < best`, over the fitting candidates, and the chosen index is the one at that position |
| Search.GreedyPick | selection/algorithms/microsoft_algorithm.py:134-141 | there is a best extension exactly when some candidate fits, and it is a fitting candidate with its cost |
| Search.EnumerateGreedy | selection/algorithms/microsoft_algorithm.py:124-156 | the recursive method computes the greedy enumeration `Greedy` defines: assertion on disjointness, stop at the bound, add the cheapest fitting candidate when strictly cheaper |
| Search.GreedyUnfold | selection/algorithms/microsoft_algorithm.py:124-156 | one unfolding of the enumeration, case by case: bound reached, no improvement, or one more index |
| Search.GreedyStepKeepsDisjoint | selection/algorithms/microsoft_algorithm.py:143-144 | moving a candidate into the current set keeps both sets repetition-free and disjoint and adds no new element |
| Search.GreedyExtends | selection/algorithms/microsoft_algorithm.py:127-156 | over repetition-free disjoint sets only a missing current cost can make the enumeration fail; the result extends the current indexes by candidates, repeats nothing and stops at the bound |
| Search.GreedyLowersCost | selection/algorithms/microsoft_algorithm.py:138-156 | the returned cost is the input cost when nothing was added, and otherwise the cost of the final set, strictly below the input cost |
| Search.GreedyAddsFitting | selection/algorithms/dta_anytime_algorithm.py:136-142 | every index the enumeration adds fits next to the indexes chosen before it |
| Search.GreedyStopsAtLocalMinimum | selection/algorithms/microsoft_algorithm.py:142-156 | when the enumeration stops before the bound, no fitting candidate left out would make the result strictly cheaper |
| Search.EnumerateNaive | selection/algorithms/microsoft_algorithm.py:109-122 | the naive loops compute `NaiveChoice`: the first cheapest combination tried, or nothing with no cost |
| Search.NaiveChoiceShape | selection/algorithms/microsoft_algorithm.py:109-122 | the naive choice has a cost exactly when some size in the range fits the input; it is then a subsequence of the input with a size in the range, and its cost is that of its set |
| Search.NaiveChoiceIsCheapest | selection/algorithms/microsoft_algorithm.py:113-120 | with no trial costing exactly 0, the naive choice costs no more than any combination tried |
| Search.FilterSubsequence | selection/algorithms/microsoft/candidate_index_selection.py:31-36 | a comprehension filter keeps the order of its input |
| Search.NaivePhaseShape | selection/algorithms/microsoft_algorithm.py:80-98 | the naive phase hands the greedy phase repetition-free, disjoint current and candidate sets drawn from the candidates |
| Search.NaiveThenGreedy | selection/algorithms/microsoft_algorithm.py:80-107 | naive then greedy fails only on a missing naive cost (TypeError); the result extends the naive choice by candidates without repeats, passes the bound only if the naive choice did, and costs what its set costs, no more than the naive choice |
| Microsoft.DefaultParameters | selection/algorithms/microsoft_algorithm.py:9-14 | the defaults are `max_indexes` 15, `max_indexes_naive` 3, `max_index_columns` 2 and what-if estimation, and nothing else |
| Microsoft.NewSettings | selection/algorithms/microsoft_algorithm.py:22-26 | `max_indexes_naive` is capped by `max_indexes`: it is the smaller of the two; the other settings are kept |
| Microsoft.PotentialForQueryExactly | selection/algorithms/microsoft_algorithm.py:64-70 | exactly the potential indexes whose leading column the query references, in their order, without repetitions |
| Microsoft.PotentialIndexesForQuery | selection/algorithms/microsoft_algorithm.py:64-70 | the loop keeps the indexes `PotentialForQuery` describes |
| Microsoft.EnumerateCombinations | selection/algorithms/microsoft_algorithm.py:72-107 | the method computes `Enumeration`: naive over sizes 1 .. min(`max_indexes_naive`, candidates), then greedy from the rest up to min(`max_indexes`, candidates) |
| Microsoft.EnumerationShape | selection/algorithms/microsoft_algorithm.py:72-107 | over repetition-free candidates only a TypeError can occur, and only with a naive limit below 1; the result is repetition-free, drawn from the candidates, within min(`max_indexes`, candidates), costs what its set costs and no more than the naive choice |
| Microsoft.EnumerationFails | selection/algorithms/microsoft_algorithm.py:80-142 | the enumeration fails exactly when the naive limit is below 1 while there are candidates and `max_indexes` is at least 1: the greedy step then compares a cost with None |
| Microsoft.CandidatesErrorSticks | selection/algorithms/microsoft_algorithm.py:52-57 | a failure at some query is the failure of the whole candidate selection |
| Microsoft.CandidatesSnoc | selection/algorithms/microsoft_algorithm.py:52-57 | one more query unites its one-query enumeration into the candidates, or ends the selection with its error |
| Microsoft.SelectIndexCandidates | selection/algorithms/microsoft_algorithm.py:49-62 | the loop over the queries computes the fold `CandidatesOf` |
| Microsoft.CandidatesShape | selection/algorithms/microsoft_algorithm.py:49-70 | the candidates are repetition-free potential indexes whose leading column some query references; an empty workload has none, and only a TypeError of an enumeration can fail the selection |
| Microsoft.CandidatesAsFold | selection/algorithms/microsoft_algorithm.py:52-57 | the selection is the fold of the per-query enumerations, stopping at the first failure |
| Microsoft.QueryEnumerationShape | selection/algorithms/microsoft_algorithm.py:55-57 | the enumeration over one query's pool fails only with TypeError and picks only potential indexes led by a column of that query |
| Microsoft.ExtensionSource | selection/algorithms/microsoft_algorithm.py:164-170 | every multicolumn candidate is an input index with one of its extension columns appended |
| Microsoft.ExtensionPresent | selection/algorithms/microsoft_algorithm.py:164-170 | every input index extended by any of its extension columns is a candidate |
| Microsoft.ExtensionsMeaning | selection/algorithms/microsoft_algorithm.py:162-171 | over the workload's indexable columns, the candidates are exactly the input indexes with one column appended that is on the index's table, referenced by the workload and not yet in the index |
| Microsoft.AddExtensions | selection/algorithms/microsoft_algorithm.py:167-170 | the inner loop adds each extension of one index to the set unless it is already there |
| Microsoft.CreateMulticolumnIndexes | selection/algorithms/microsoft_algorithm.py:162-171 | as intended: a repetition-free set holding exactly the input indexes extended by one column of their table that the workload references and the index lacks |
| Microsoft.CreateMulticolumnAsWrittenFails | selection/algorithms/microsoft_algorithm.py:170 | the as-written extension fails exactly when the intended one produces some index, and otherwise returns the same empty set |
| Microsoft.ExtensionAdmissible | selection/algorithms/microsoft_algorithm.py:167-170 | widening an index of at most w distinct referenced columns on one table by an extension column gives one of at most w + 1 |
| Microsoft.WidthRound | selection/algorithms/microsoft_algorithm.py:37-46 | one pass of the width loop fails only with TypeError; it chooses repetition-free candidates within `max_indexes`, each admissible at that width, and widens them for the next pass only when asked |
| Microsoft.CalculateBestIndexes | selection/algorithms/microsoft_algorithm.py:28-47 | `max_indexes == 0` returns nothing; with `max_index_columns < 1` `indexes` is never bound (UnboundLocalError); otherwise only TypeError can occur, and the result is repetition-free, within `max_indexes`, each index at most `max_index_columns` distinct referenced columns on one table |
| ConfigurationEnumerations.ConfigurationEnumeration.constructor | selection/algorithms/microsoft/configuration_enumeration.py:6-22 | a new enumeration keeps its candidates, limits and cost, with nothing chosen and no cost yet |
| ConfigurationEnumerations.ConfigurationEnumeration.EnumerateNaive | selection/algorithms/microsoft/configuration_enumeration.py:74-85 | with n < 0 nothing is tried and `list(None)` is a TypeError; otherwise every combination of sizes 0 .. n is costed and the first cheapest under the falsy guard is kept with its cost |
| ConfigurationEnumerations.ConfigurationEnumeration.EnumerateGreedy | selection/algorithms/microsoft/configuration_enumeration.py:53-72 | the chosen list and cost become those of the greedy enumeration over the candidates not yet chosen, stopping at `number_indexes` |
| ConfigurationEnumerations.ConfigurationEnumeration.Enumerate | selection/algorithms/microsoft/configuration_enumeration.py:24-51 | `enumerate` returns what `ConfigEnumeration` computes: naive up to min(`max_indexes_naive`, candidates), then greedy up to min(`max_indexes`, candidates) |
| ConfigurationEnumerations.NaiveTriesEmpty | selection/algorithms/microsoft/configuration_enumeration.py:77-84 | the empty configuration is among the naive trials |
| ConfigurationEnumerations.NaiveNoWorseThanNoIndex | selection/algorithms/microsoft/configuration_enumeration.py:77-84 | since the empty configuration is tried, the naive phase never costs more than no index at all, when no trial costs exactly 0 |
| ConfigurationEnumerations.ConfigEnumerationFails | selection/algorithms/microsoft/configuration_enumeration.py:37-85 | over repetition-free candidates `enumerate` fails exactly for a negative naive limit, with a TypeError |
| ConfigurationEnumerations.ConfigEnumerationShape | selection/algorithms/microsoft/configuration_enumeration.py:37-72 | with a naive limit of at least 0 the chosen indexes are repetition-free candidates, more than the naive limit only when greedy added some and then within min(`max_indexes`, candidates); the cost is that of the chosen set and never above the naive one |
| CandidateIndexSelections.FilterPotentialExactly | selection/algorithms/microsoft/candidate_index_selection.py:31-36 | exactly the potential indexes all of whose columns the query references, in input order, without repetitions |
| CandidateIndexSelections.CandidateIndexSelection.constructor | selection/algorithms/microsoft/candidate_index_selection.py:7-10 | the selection keeps its cost evaluation and the algorithm's limits |
| CandidateIndexSelections.CandidateIndexSelection.FilterPotentialIndexes | selection/algorithms/microsoft/candidate_index_selection.py:31-36 | the loop keeps the indexes `FilterPotential` describes |
| CandidateIndexSelections.CandidateIndexSelection.Select | selection/algorithms/microsoft/candidate_index_selection.py:12-29 | `select` returns the indexes chosen by one fresh enumeration per one-query workload, gathered and de-duplicated |
| CandidateIndexSelections.GatheredNext | selection/algorithms/microsoft/candidate_index_selection.py:14-24 | one more query's enumeration either ends the selection with its error or appends its indexes |
| CandidateIndexSelections.GatheredErrorSticks | selection/algorithms/microsoft/candidate_index_selection.py:14-24 | a failure at some query is the failure of the whole selection |
| CandidateIndexSelections.SelectionFails | selection/algorithms/microsoft/candidate_index_selection.py:12-29 | an empty workload yields no candidates; otherwise `select` fails exactly for a negative naive limit |
| CandidateIndexSelections.GatheredFails | selection/algorithms/microsoft/candidate_index_selection.py:14-24 | the gathering loop fails exactly when there is a query and the naive limit is negative |
| CandidateIndexSelections.SelectionShape | selection/algorithms/microsoft/candidate_index_selection.py:12-36 | with a naive limit of at least 0, `select` succeeds with repetition-free potential indexes, every column of which some query references, each chosen by the enumeration over one query of the workload |
| CandidateIndexSelections.GatheredShape | selection/algorithms/microsoft/candidate_index_selection.py:14-24 | every gathered index is a potential index over columns of some query, chosen by that query's enumeration |
| CandidateIndexSelections.GatheredExtends | selection/algorithms/microsoft/candidate_index_selection.py:24 | appending one more query's chosen indexes keeps every gathered index accounted for |
| MultiColumnIndexGenerations.SingleColumnIndexesExactly | selection/algorithms/microsoft/multi_column_index_generation.py:9-10 | `single_column_indexes` are exactly the single-column potential indexes, in order |
| MultiColumnIndexGenerations.MultiColumnIndexGeneration.constructor | selection/algorithms/microsoft/multi_column_index_generation.py:6-10 | the generator keeps the potential indexes and their single-column members |
| MultiColumnIndexGenerations.MultiColumnIndexGeneration.Create | selection/algorithms/microsoft/multi_column_index_generation.py:12-22 | as intended, `create` returns the list `Created` describes |
| MultiColumnIndexGenerations.AppendExtensions | selection/algorithms/microsoft/multi_column_index_generation.py:15-21 | the inner loop appends, in candidate order, each new same-table candidate column to the index |
| MultiColumnIndexGenerations.CreatedAsWrittenFails | selection/algorithms/microsoft/multi_column_index_generation.py:20 | the as-written `create` fails with TypeError exactly when the intended one returns some candidate, and otherwise returns the same empty list |
| MultiColumnIndexGenerations.ExtensionsStep | selection/algorithms/microsoft/multi_column_index_generation.py:15-21 | one more candidate's additions come last |
| MultiColumnIndexGenerations.CreatedStep | selection/algorithms/microsoft/multi_column_index_generation.py:14-21 | one more index's extensions come last |
| MultiColumnIndexGenerations.CreatedSource | selection/algorithms/microsoft/multi_column_index_generation.py:14-21 | every created index is an input index plus a candidate it is appendable by |
| MultiColumnIndexGenerations.CreatedPresent | selection/algorithms/microsoft/multi_column_index_generation.py:14-21 | every appendable pair of an input index and a candidate is created |
| MultiColumnIndexGenerations.CreatedMeaning | selection/algorithms/microsoft/multi_column_index_generation.py:12-22 | `create` returns exactly the input indexes extended by a single-column candidate they are appendable by (same table, column not present) |
| MultiColumnIndexGenerations.CreatedClean | selection/algorithms/microsoft/multi_column_index_generation.py:17-21 | extending an index on one table without repeated columns gives such an index again, one column wider, with the input index as its prefix |
| MultiColumnIndexGenerations.CreatedIndexMajor | selection/algorithms/microsoft/multi_column_index_generation.py:14-21 | the output is index-major: what earlier indexes create comes first |
| MultiColumnIndexGenerations.CreatedBound | selection/algorithms/microsoft/multi_column_index_generation.py:14-21 | each index gains at most one extension per candidate |
| RelaxationAlgorithms.DefaultParameters | selection/algorithms/relaxation_algorithm.py:9-12 | the defaults are `max_index_columns` and `budget`, nothing else |
| RelaxationAlgorithms.DiskConstraintInBytes | selection/algorithms/relaxation_algorithm.py:23-24 | the budget is read in MB and stored in bytes, times 1,000,000; the default gives 500,000,000 |
| RelaxationAlgorithms.Candidate | selection/algorithms/relaxation_algorithm.py:46-54 | a turn that passes both assertions yields a configuration without that index, and shorter |
| RelaxationAlgorithms.CandidatesAt | selection/algorithms/relaxation_algorithm.py:46 | the turns of the removal loop are taken in configuration order |
| RelaxationAlgorithms.Best | selection/algorithms/relaxation_algorithm.py:56-60 | the running best, when there is one, is one of the turns, and some turn is best as soon as one was taken |
| RelaxationAlgorithms.Scan | selection/algorithms/relaxation_algorithm.py:41-60 | the removal loop over a non-empty configuration that passes picks a strictly smaller configuration |
| RelaxationAlgorithms.BestAppend | selection/algorithms/relaxation_algorithm.py:56-60 | one more turn either fails the loop or replaces the best when there is none yet or its penalty is strictly higher |
| RelaxationAlgorithms.CandidateOk | selection/algorithms/relaxation_algorithm.py:47-60 | a turn whose assertions hold removes its index, with size `cp_size` less its size and penalty increase over savings |
| RelaxationAlgorithms.PenaltyNext | selection/algorithms/relaxation_algorithm.py:56-60 | a passing turn updates the best by the strict penalty comparison |
| RelaxationAlgorithms.PenaltyFails | selection/algorithms/relaxation_algorithm.py:51-54 | a turn whose assertion fails fails the whole removal loop with AssertionError |
| RelaxationAlgorithms.PenaltyTurn | selection/algorithms/relaxation_algorithm.py:47-60 | one turn checks both assertions for its index and updates the running best |
| RelaxationAlgorithms.LowestPenalty | selection/algorithms/relaxation_algorithm.py:41-60 | the removal loop computes `Scan`: the lowest-penalty relaxation or the first assertion failure |
| RelaxationAlgorithms.Relax | selection/algorithms/relaxation_algorithm.py:32-65 | the relaxation loop computes `Relaxed`: remove the lowest-penalty index until the configuration fits |
| RelaxationAlgorithms.CalculateBestIndexes | selection/algorithms/relaxation_algorithm.py:26-65 | the result is the relaxation of the union of the indexes the recommendation step found for the queries |
| RelaxationAlgorithms.BestFails | selection/algorithms/relaxation_algorithm.py:46-60 | the running best fails exactly when some turn fails, with the first failure's error |
| RelaxationAlgorithms.BestChoice | selection/algorithms/relaxation_algorithm.py:56-60 | over turns that all pass, the best is the first of lowest penalty: earlier turns strictly higher, later ones at least as high |
| RelaxationAlgorithms.CandidateMeaning | selection/algorithms/relaxation_algorithm.py:47-60 | a turn fails with AssertionError exactly when the cost increase is negative or the savings are not positive; otherwise it removes that index |
| RelaxationAlgorithms.ScanFails | selection/algorithms/relaxation_algorithm.py:46-54 | the removal loop fails with AssertionError exactly when some index breaks an assertion |
| RelaxationAlgorithms.ScanChoice | selection/algorithms/relaxation_algorithm.py:41-63 | a successful removal loop over a non-empty configuration picks the first index of lowest penalty and removes it, its size subtracted from `cp_size` |
| RelaxationAlgorithms.TotalSizeWithout | selection/algorithms/relaxation_algorithm.py:59 | removing an index from a repetition-free configuration lowers its total size by that index's size |
| RelaxationAlgorithms.RelaxStep | selection/algorithms/relaxation_algorithm.py:41-63 | each step removes exactly one index of the configuration and lowers the size by its size, against the same initial cost |
| RelaxationAlgorithms.RelaxFromUnfold | selection/algorithms/relaxation_algorithm.py:35-63 | while over budget, the loop goes on from the lowest-penalty removal |
| RelaxationAlgorithms.RelaxFromFits | selection/algorithms/relaxation_algorithm.py:35-65 | over repetition-free candidates, a successful relaxation returns a repetition-free subsequence of them whose total size fits the budget; the TypeError needs a negative budget |
| RelaxationAlgorithms.RelaxedFits | selection/algorithms/relaxation_algorithm.py:26-65 | the relaxed candidates fit the budget and are drawn from the candidates in order |
| RelaxationAlgorithms.RelaxedUnchangedWhenFitting | selection/algorithms/relaxation_algorithm.py:35 | candidates that already fit are returned unchanged |
| IbmAlgorithm.DefaultParameters | selection/algorithms/ibm_algorithm.py:13-18 | the defaults name exactly `max_index_columns`, `budget`, `try_variation_seconds_limit` and `try_variation_maximum_remove` |
| IbmAlgorithm.SettingsOf | selection/algorithms/ibm_algorithm.py:46-56 | settings exist exactly when all four parameters are integers, and the disk constraint is the budget in MB times 1,000,000 |
| IbmAlgorithm.DefaultSettings | selection/algorithms/ibm_algorithm.py:13-56 | the defaults give three columns, 500,000,000 bytes, ten seconds and four removals |
| IbmAlgorithm.TablesOfMembers | selection/algorithms/ibm_algorithm.py:125-129 | the keys of `indexable_columns_per_table` are the tables of the query's columns, each once |
| IbmAlgorithm.ColumnsOfTableMembers | selection/algorithms/ibm_algorithm.py:127-129 | a table's entry holds exactly the query columns on that table, each once |
| IbmAlgorithm.ColumnsOfAbsentTable | selection/algorithms/ibm_algorithm.py:125-129 | a table none of the columns lies on gets no columns |
| IbmAlgorithm.IndexesOfMembers | selection/algorithms/ibm_algorithm.py:140 | one index per column combination, and an index is produced exactly when its columns are a combination; distinct combinations give distinct indexes |
| IbmAlgorithm.PermutationsExactly | selection/algorithms/ibm_algorithm.py:136 | an ordering is among the `k`-permutations of distinct columns exactly when it has `k` distinct elements of them |
| IbmAlgorithm.WithWidthsMembers | selection/algorithms/ibm_algorithm.py:134-137 | merging in widths 1 .. `max_index_columns` adds exactly the orderings of those widths |
| IbmAlgorithm.WithTablesMembers | selection/algorithms/ibm_algorithm.py:131-137 | after the loop over the tables, the combinations are exactly the orderings within one of them |
| IbmAlgorithm.PossibleIndexesExactly | selection/algorithms/ibm_algorithm.py:117-140 | `_possible_indexes` yields an index exactly when it is on 1 .. `max_index_columns` distinct query columns that share one table |
| IbmAlgorithm.PossibleIndexesDistinct | selection/algorithms/ibm_algorithm.py:131-140 | the set `possible_column_combinations` produces no index twice |
| IbmAlgorithm.WithWidthsCount | selection/algorithms/ibm_algorithm.py:134-137 | the number of orderings of widths 1 .. w of n columns is the sum of the falling factorials |
| IbmAlgorithm.WidthsDisjoint | selection/algorithms/ibm_algorithm.py:134-137 | orderings of a new width are none of the narrower ones |
| IbmAlgorithm.OneTableCount | selection/algorithms/ibm_algorithm.py:117-140 | on a query whose distinct columns lie on one table, the count is the number of orderings of 1 .. `max_index_columns` of them |
| IbmAlgorithm.PossibleIndexesExamples | selection/algorithms/ibm_algorithm.py:117-140 | one column gives one index; three columns of one table give 9 indexes at width 2 and 15 at width 3 |
| IbmAlgorithm.GroupedMeaning | selection/algorithms/ibm_algorithm.py:125-129 | the dict has one entry per table of the columns, holding that table's columns |
| IbmAlgorithm.GroupByTable | selection/algorithms/ibm_algorithm.py:125-129 | the grouping loop yields the tables in first-seen order and, for each, exactly its columns |
| IbmAlgorithm.PossibleIndexes | selection/algorithms/ibm_algorithm.py:117-140 | the grouping and merging loops compute the combinations characterised by `PossibleIndexesExactly` |
| IbmAlgorithm.SimulatedKeys | selection/algorithms/ibm_algorithm.py:100-101 | the simulations take the consecutive oids from the connector's next oid on |
| IbmAlgorithm.UsedExactly | selection/algorithms/ibm_algorithm.py:109-112 | on distinct possible indexes, an index is recommended exactly when its hypopg name occurs in the plan text, and none twice |
| IbmAlgorithm.SimulateFresh | selection/algorithms/ibm_algorithm.py:101 | one simulation with `store_size=True` takes the next oid, records it, issues its size query and returns the name hypopg gave it; no plan or cost is requested |
| IbmAlgorithm.SimulateAll | selection/algorithms/ibm_algorithm.py:100-101 | every possible index is simulated in order under consecutive oids, one size query each, and the names are those the connector gave |
| IbmAlgorithm.RecommendedIndexes | selection/algorithms/ibm_algorithm.py:95-115 | with all possible indexes simulated, one plan is requested; every simulation is then dropped; the recommendations are the possible indexes named in that plan, and the cost is that plan's total cost |
| IbmAlgorithm.FilterUsed | selection/algorithms/ibm_algorithm.py:109-112 | the filtering loop keeps exactly the indexes whose names occur in the plan text |
| IbmAlgorithm.Queries | selection/algorithms/ibm_algorithm.py:87 | the keys of a list of results are its queries, in order |
| IbmAlgorithm.PutQueries | selection/algorithms/ibm_algorithm.py:87-91 | assigning to `query_results` keeps the order of the keys and adds a new key last |
| IbmAlgorithm.QueriesTail | selection/algorithms/ibm_algorithm.py:87-91 | dropping the first entry keeps the keys distinct and removes the first key |
| IbmAlgorithm.PutEntries | selection/algorithms/ibm_algorithm.py:87-91 | after the assignment the key holds the new value and every other entry is unchanged |
| IbmAlgorithm.ProbeQuery | selection/algorithms/ibm_algorithm.py:80-92 | one turn of `_exploit_virtual_indexes`: a plan without new indexes, then `_recommended_indexes`; the state and the plan log move as the turn function says |
| IbmAlgorithm.ExploitVirtualIndexes | selection/algorithms/ibm_algorithm.py:77-93 | the loop yields the dict of every turn's result and the union of the recommendations; each query is planned twice, and the what-if state ends as the turns leave it |
| IbmAlgorithm.TraceQueries | selection/algorithms/ibm_algorithm.py:80-91 | each turn's result is filed under its own query, in workload order |
| IbmAlgorithm.ProbeRecommendations | selection/algorithms/ibm_algorithm.py:80-140 | a turn recommends, once each, exactly those possible indexes of its query whose name occurs in the plan made while all were simulated; each is an ordering of up to `max_index_columns` columns of one table of the query |
| IbmAlgorithm.TraceRecommendations | selection/algorithms/ibm_algorithm.py:80-92 | every turn's recommendations are possible indexes of its query, without repetitions |
| IbmAlgorithm.PutNew | selection/algorithms/ibm_algorithm.py:87-91 | assigning a new key appends its entry |
| IbmAlgorithm.DictQueries | selection/algorithms/ibm_algorithm.py:78-91 | the keys of `query_results` are the workload's queries, each once, in first-seen order |
| IbmAlgorithm.DictOfDistinct | selection/algorithms/ibm_algorithm.py:78-91 | when no query repeats, `query_results` holds every turn's result in turn order |
| IbmAlgorithm.DictLatest | selection/algorithms/ibm_algorithm.py:78-91 | a repeated query keeps the result of its last turn: every stored entry is a turn's result and the last turn of each query is stored |
| IbmAlgorithm.DictDistinct | selection/algorithms/ibm_algorithm.py:78-91 | no query is stored twice |
| IbmAlgorithm.UnionMembers | selection/algorithms/ibm_algorithm.py:79-92 | the candidates are every recommended index, once, and nothing else |
| IbmBenefits.ByRatioTotal | selection/algorithms/ibm_algorithm.py:157 | the descending benefit-per-byte order used by `sorted` is total |
| IbmBenefits.Unranked | selection/algorithms/ibm_algorithm.py:143-156 | one entry per candidate, in candidate order |
| IbmBenefits.CalculateIndexBenefits | selection/algorithms/ibm_algorithm.py:142-157 | the summing loops compute the ranking `IndexBenefitsFails` and `IndexBenefitsShape` characterise |
| IbmBenefits.IndexBenefitsFails | selection/algorithms/ibm_algorithm.py:41-157 | ranking fails with ZeroDivisionError exactly when some candidate has size zero |
| IbmBenefits.IndexBenefitsShape | selection/algorithms/ibm_algorithm.py:142-157 | otherwise the ranking holds one entry per candidate with that candidate's summed savings, ordered by descending benefit per byte |
| IbmBenefits.BenefitOfNotRecommended | selection/algorithms/ibm_algorithm.py:146-150 | a candidate no query recommends has benefit zero |
| IbmBenefits.BenefitOfConcat | selection/algorithms/ibm_algorithm.py:148-154 | benefits add up over the query results |
| IbmBenefits.NegativeBenefit | selection/algorithms/ibm_algorithm.py:152-154 | a recommendation that makes its query dearer gives a negative benefit |
| IbmBenefits.Absorb | selection/algorithms/ibm_algorithm.py:181-187 | the inner step keeps the number of entries |
| IbmBenefits.CombineSubsumed | selection/algorithms/ibm_algorithm.py:163-195 | the merging loops compute the result `CombineSubsumedShape` and `CombineSubsumedFails` characterise |
| IbmBenefits.CombineAll | selection/algorithms/ibm_algorithm.py:175-187 | the outer loop runs the merge over every high position |
| IbmBenefits.AbsorbSubsumed | selection/algorithms/ibm_algorithm.py:179-187 | the inner loop runs the merge for one high position over every later one |
| IbmBenefits.AbsorbUpToIndexes | selection/algorithms/ibm_algorithm.py:183-187 | merging changes benefits only, never an entry's index |
| IbmBenefits.CombineIndexes | selection/algorithms/ibm_algorithm.py:175-187 | after all merging, every position still holds its input index |
| IbmBenefits.AbsorbUpToRemoves | selection/algorithms/ibm_algorithm.py:179-187 | positions removed for high position `i` lie after `i`, and `i` is kept |
| IbmBenefits.CombineRemovedAfter | selection/algorithms/ibm_algorithm.py:174-187 | every removed entry lies after a kept entry whose index subsumes it |
| IbmBenefits.AbsorbUpToMaximal | selection/algorithms/ibm_algorithm.py:180-187 | after the inner loop for `i`, no later kept entry has an index that `i`'s index subsumes |
| IbmBenefits.CombineMaximal | selection/algorithms/ibm_algorithm.py:175-187 | no kept entry subsumes a kept entry after it |
| IbmBenefits.KeptSumMove | selection/algorithms/ibm_algorithm.py:186-187 | moving one kept entry's benefit onto another kept entry and removing it keeps the total |
| IbmBenefits.AbsorbUpToKeeps | selection/algorithms/ibm_algorithm.py:180-187 | the inner loop keeps the total benefit of the kept entries |
| IbmBenefits.CombineKeeps | selection/algorithms/ibm_algorithm.py:175-187 | merging moves benefit between entries but neither creates nor loses any |
| IbmBenefits.SurvivorsTotal | selection/algorithms/ibm_algorithm.py:189 | the surviving entries carry the kept total |
| IbmBenefits.SurvivorsFrom | selection/algorithms/ibm_algorithm.py:189 | each survivor is a merged entry at a position that was not removed |
| IbmBenefits.CombineSubsumedShape | selection/algorithms/ibm_algorithm.py:159-195 | on sorted input with non-zero sizes, the result is the survivors ranked by ratio; each carries an input index with its merged benefit; no kept entry subsumes a later kept one; every dropped entry was subsumed by an earlier kept one; the benefits add up to the input's |
| IbmBenefits.CombineSubsumedFails | selection/algorithms/ibm_algorithm.py:165-172 | `_combine_subsumed` fails exactly on unsorted or zero-sized input of at least two entries |
| IbmBenefits.UsageAppend | selection/algorithms/ibm_algorithm.py:69 | `disk_usage` grows by the appended entry's size |
| IbmBenefits.PackFits | selection/algorithms/ibm_algorithm.py:64-69 | the packed entries fit the disk constraint, and a negative budget takes nothing |
| IbmBenefits.PackSubsequence | selection/algorithms/ibm_algorithm.py:66-68 | the packed entries are taken in ranking order |
| IbmBenefits.PackMaximal | selection/algorithms/ibm_algorithm.py:66-69 | an entry left out did not fit beside what was packed before it |
| IbmBenefits.SelectWithinBudget | selection/algorithms/ibm_algorithm.py:64-69 | the knapsack loop computes the packing that `PackFits`, `PackSubsequence` and `PackMaximal` characterise |
| IbmBenefits.IndexesOfBenefits | selection/algorithms/ibm_algorithm.py:75 | the result lists the chosen entries' indexes, in order |
| IbmBenefits.CalculateBestIndexes | selection/algorithms/ibm_algorithm.py:58-75 | recommendations are gathered as `ExploitVirtualIndexes` says, then ranked, merged, packed and possibly varied; the result is `BestIndexes` of those |
| IbmBenefits.UsageOfIndexes | selection/algorithms/ibm_algorithm.py:75 | the chosen entries' sizes are their indexes' sizes |
| IbmBenefits.ChosenFit | selection/algorithms/ibm_algorithm.py:64-244 | the chosen entries come from the merged ranking and fit a non-negative budget, with or without variations |
| IbmBenefits.BestIndexesFit | selection/algorithms/ibm_algorithm.py:58-75 | the recommended indexes come from the merged ranking and stay within a non-negative disk budget; without variations they are the packed ranking in order |
| DtaAnytime.DefaultParameters | selection/algorithms/dta_anytime_algorithm.py:10-13 | the defaults are `max_index_columns` and `budget`, nothing else |
| DtaAnytime.DiskConstraintInBytes | selection/algorithms/dta_anytime_algorithm.py:24-25 | the budget is read in MB and stored in bytes, times 1,000,000; the default gives 500,000,000 |
| DtaAnytime.Select | selection/algorithms/dta_anytime_algorithm.py:32-35 | for given candidates the result is the greedy enumeration's indexes, or its failure |
| DtaAnytime.CalculateBestIndexes | selection/algorithms/dta_anytime_algorithm.py:28-148 | candidates are the recommendations gathered as in the DB2 advisor, and the result is the greedy enumeration over them within the budget |
| DtaAnytime.AnytimeShape | selection/algorithms/dta_anytime_algorithm.py:38-75 | on distinct candidates the enumeration never fails; it returns distinct candidates; a non-empty result fits the budget and costs strictly less than no index; an empty result keeps the cost without indexes |
| DtaAnytime.AnytimeEveryStepFits | selection/algorithms/dta_anytime_algorithm.py:52-64 | every index added fits the budget next to those chosen before it |
| DtaAnytime.PrefixesFit | selection/algorithms/dta_anytime_algorithm.py:56-58 | if each index fits next to those before it, every intermediate configuration fits |
| DtaAnytime.AnytimeStopsAtLocalMinimum | selection/algorithms/dta_anytime_algorithm.py:44-75 | with no bound on the number of indexes, the enumeration stops only when no remaining candidate both fits and makes the result strictly cheaper |
| DtaAnytime.EnumerateGreedyRejectsOverlap | selection/algorithms/dta_anytime_algorithm.py:41-43 | overlapping current and candidate indexes fail with an AssertionError before anything else |
| EpicAlgorithm.DefaultParameters | selection/algorithms/epic_algorithm.py:6-7 | the defaults name exactly `cost_estimation`, `budget`, `number_steps` and `pruning` |
| EpicAlgorithm.BudgetInBytes | selection/algorithms/epic_algorithm.py:15 | the budget is the MB parameter times 1,000,000; the default gives 10,000,000 |
| EpicAlgorithm.Extended | selection/algorithms/epic_algorithm.py:59-61 | the widened index has columns |
| EpicAlgorithm.ReplacedValid | selection/algorithms/epic_algorithm.py:65-66 | replacing one index of a combination by an index with columns keeps every index with columns |
| EpicAlgorithm.ExtensionTrialsValid | selection/algorithms/epic_algorithm.py:57-68 | every widening trial consists of indexes with columns |
| EpicAlgorithm.CandidateTrialsValid | selection/algorithms/epic_algorithm.py:46-68 | every trial for one candidate consists of indexes with columns |
| EpicAlgorithm.StepTrialsValid | selection/algorithms/epic_algorithm.py:46-68 | every trial of a step consists of indexes with columns |
| EpicAlgorithm.EvaluateAllChoice | selection/algorithms/epic_algorithm.py:78-88 | the leader after the trials is the one before them or one of the trials |
| EpicAlgorithm.StepValid | selection/algorithms/epic_algorithm.py:46-68 | a step from indexes with columns leads to indexes with columns |
| EpicAlgorithm.ErrPrefix | selection/algorithms/epic_algorithm.py:82 | a ZeroDivisionError in one trial ends the step with that error |
| EpicAlgorithm.EvaluateAllConcat | selection/algorithms/epic_algorithm.py:46-68 | evaluating two runs of trials one after the other is evaluating their concatenation |
| EpicAlgorithm.EvaluateWidenings | selection/algorithms/epic_algorithm.py:57-68 | the widening loop evaluates exactly the widening trials, position by position |
| EpicAlgorithm.EvaluateCandidate | selection/algorithms/epic_algorithm.py:53-68 | one candidate's turn evaluates the addition, when the candidate is new, and then the widenings |
| EpicAlgorithm.EvaluateStep | selection/algorithms/epic_algorithm.py:46-68 | one pass of the candidate loop yields the step's leader |
| EpicAlgorithm.EvaluateTurn | selection/algorithms/epic_algorithm.py:46-68 | a candidate the budget rules out is skipped; otherwise its trials are evaluated |
| EpicAlgorithm.EpicFromStep | selection/algorithms/epic_algorithm.py:32-75 | with steps left, the loop takes a step and goes on from its leader |
| EpicAlgorithm.EpicFromUnfold | selection/algorithms/epic_algorithm.py:69-75 | a failed step ends the loop with its error, a ratio of 0 ends it with the current combination, and otherwise the loop goes on from the leader with the leader's size as `combi_size` |
| EpicAlgorithm.AfterStepCases | selection/algorithms/epic_algorithm.py:69-75 | after a step the loop stops with its error, stops where it is, or goes on from the leader |
| EpicAlgorithm.TakeStep | selection/algorithms/epic_algorithm.py:44-75 | one step as the loop sees it: its failure, its stop or its continuation |
| EpicAlgorithm.Search | selection/algorithms/epic_algorithm.py:20-76 | the step loop from no index at the cost of no index computes `Epic`, whose outcome `EpicShape` states |
| EpicAlgorithm.CalculateBestIndexes | selection/algorithms/epic_algorithm.py:17-76 | the candidates are exactly the single-column indexes of the referenced columns, each once, and the result is the search over them |
| EpicAlgorithm.RatioCompare | selection/algorithms/epic_algorithm.py:82-84 | for a positive size, a benefit per byte above a bound is a benefit above the bound times the size |
| EpicAlgorithm.EvaluateCombinationMeaning | selection/algorithms/epic_algorithm.py:78-88 | `_evaluate_combination` fails exactly on size 0; otherwise the leader becomes the combination at its own cost exactly when the combination fits the budget and its benefit per byte beats the leader's ratio |
| EpicAlgorithm.EvaluateAllFails | selection/algorithms/epic_algorithm.py:78-88 | the trials fail exactly when one of them has size 0, with a ZeroDivisionError |
| EpicAlgorithm.EvaluateAllFromZero | selection/algorithms/epic_algorithm.py:69-88 | from ratio 0, the ratio stays 0 exactly when no trial fits and lowers the cost; a positive ratio belongs to a trial within the budget that costs less than the start |
| EpicAlgorithm.FromZeroAll | selection/algorithms/epic_algorithm.py:78-88 | the invariant of a step started at ratio 0 holds after all its trials |
| EpicAlgorithm.FromZeroStep | selection/algorithms/epic_algorithm.py:78-88 | one more trial keeps that invariant |
| EpicAlgorithm.ExtensionTrialsMeaning | selection/algorithms/epic_algorithm.py:57-68 | the widening trials are exactly the combinations with one index widened by the candidate's column, unless that column list is already in the combination |
| EpicAlgorithm.CandidateTrialsMeaning | selection/algorithms/epic_algorithm.py:46-68 | a candidate the budget rules out has no trials; otherwise the addition when it is new, and every widening |
| EpicAlgorithm.StepFails | selection/algorithms/epic_algorithm.py:46-82 | a step fails only by division by zero |
| EpicAlgorithm.StepOutcome | selection/algorithms/epic_algorithm.py:46-73 | from a combination at its own cost, a ratio of 0 means no trial improves on it; otherwise the new combination fits the budget and costs strictly less |
| EpicAlgorithm.EndsSettledAfterStep | selection/algorithms/epic_algorithm.py:69-75 | an ending reached after an improving step is an ending of the step before |
| EpicAlgorithm.EpicFromShape | selection/algorithms/epic_algorithm.py:32-76 | the loop fails only by division by zero or the step bound; it ends with its start, or with a cheaper combination within the budget, and no further trial improves on the result |
| EpicAlgorithm.EpicFromErrors | selection/algorithms/epic_algorithm.py:32-76 | the loop fails only by division by zero or by running out of steps |
| EpicAlgorithm.AfterStepErrors | selection/algorithms/epic_algorithm.py:69-75 | after a step that failed only by division by zero, the loop fails only so or by running out of steps |
| EpicAlgorithm.AfterImprovingStepErrors | selection/algorithms/epic_algorithm.py:71-75 | the same after an improving step with steps left |
| EpicAlgorithm.EpicFromEnds | selection/algorithms/epic_algorithm.py:32-76 | an ending of the loop is settled, and is its start or a cheaper combination within the budget |
| EpicAlgorithm.AfterStepEnds | selection/algorithms/epic_algorithm.py:69-75 | after a step with its outcome, an ending of the loop is settled, and is the start or cheaper |
| EpicAlgorithm.EpicFromMoreFuel | selection/algorithms/epic_algorithm.py:32 | a run that ends within the step bound ends the same way with any larger bound, so it is the result of the unbounded `while True` |
| EpicAlgorithm.EpicMoreFuel | selection/algorithms/epic_algorithm.py:32 | the same for the search from no index |
| EpicAlgorithm.EpicShape | selection/algorithms/epic_algorithm.py:17-76 | the result is no index, when nothing improves on the cost without indexes, or a combination within the budget that costs strictly less; no trial of a further step would fit and lower its cost |
| CophyAlgorithm.DefaultParameters | selection/algorithms/cophy_algorithm.py:9 | the defaults are two index columns and one index per query, nothing else |
| CophyAlgorithm.CalculateBestIndexes | selection/algorithms/cophy_algorithm.py:19-89 | the printing loops emit `AmplInput`, whose layout and rows the lemmas below state; the result is the empty list, or the AssertionError of an index without a size |
| CophyAlgorithm.AmplInputFails | selection/algorithms/cophy_algorithm.py:67-68 | printing fails exactly when some useful index has no size |
| CophyAlgorithm.PrintedLayout | selection/algorithms/cophy_algorithm.py:64-88 | the printed data is the `param a` header, one line per size row, `combi[0]`, one line per combination, the `param f4` header, then exactly the cost rows |
| CophyAlgorithm.AmplCostRows | selection/algorithms/cophy_algorithm.py:80-88 | each query is tagged by its 1-based position; its base row holds the cost without indexes, no other row has combination 0, and (q, i, c) appears exactly when the i-th combination costs q c, strictly less than without indexes |
| CophyAlgorithm.AmplBaseRows | selection/algorithms/cophy_algorithm.py:81-83 | one base row per query, tagged by its position, at its cost without indexes |
| CophyAlgorithm.BaseRowsOf | selection/algorithms/cophy_algorithm.py:81-83 | the base-row facts on the rows as plain values |
| CophyAlgorithm.CombinationRowsOf | selection/algorithms/cophy_algorithm.py:84-88 | the rows of one combination are those of queries it makes strictly cheaper |
| CophyAlgorithm.AmplCombinationRows | selection/algorithms/cophy_algorithm.py:84-88 | (q, i, c) with i > 0 is printed exactly when the i-th combination makes query q strictly cheaper, at cost c |
| CophyEnumeration.EnumerationAsWritten | selection/algorithms/cophy_input_generation.py:26-60 | as written the enumeration always fails: a TypeError from the one-argument `Workload` as soon as there is a query, otherwise an AttributeError from the missing `cost_requests` |
| CophyEnumeration.CostsWithoutIndexes | selection/algorithms/cophy_algorithm.py:24-26 | every query is costed without any index, by workload position |
| CophyEnumeration.TablesInMeaning | selection/algorithms/cophy_algorithm.py:28-33 | the keys of `accessed_columns_per_table` are the tables of the accessed columns, each once |
| CophyEnumeration.ColumnsInMeaning | selection/algorithms/cophy_algorithm.py:28-33 | a table's column set holds exactly the accessed columns on that table, each once |
| CophyEnumeration.ColumnsOfNewTable | selection/algorithms/cophy_algorithm.py:31-32 | a table not yet seen starts with no columns |
| CophyEnumeration.AddQueryColumns | selection/algorithms/cophy_algorithm.py:30-33 | adding one query's columns keeps the dict equal to the grouping of all columns seen so far |
| CophyEnumeration.AccessedColumnsPerTable | selection/algorithms/cophy_algorithm.py:28-33 | the loops build the grouping of all the workload's columns by table |
| CophyEnumeration.PrependMeaning | selection/algorithms/cophy_algorithm.py:38 | the orderings led by `x` are `x` followed by one of the shorter orderings |
| CophyEnumeration.PermutationsMeaning | selection/algorithms/cophy_algorithm.py:38 | on distinct columns, `itertools.permutations(cols, r)` yields exactly the orderings of `r` distinct elements of them |
| CophyEnumeration.ConsOverWithout | selection/algorithms/cophy_algorithm.py:38 | an ordering led by `x` is an ordering over the rest without `x` |
| CophyEnumeration.LedByMeaning | selection/algorithms/cophy_algorithm.py:38 | the orderings of width `r` led by `x` are exactly those `x` heads |
| CophyEnumeration.PermutationsLeadingMeaning | selection/algorithms/cophy_algorithm.py:38 | the orderings whose head lies among the first `k` elements |
| CophyEnumeration.IndexesOfMeaning | selection/algorithms/cophy_algorithm.py:39 | an index is built exactly for each column ordering |
| CophyEnumeration.WidthCandidatesMeaning | selection/algorithms/cophy_algorithm.py:37-39 | the candidates of one width are the orderings of that many distinct columns of one table |
| CophyEnumeration.GeneratedMeaning | selection/algorithms/cophy_algorithm.py:35-39 | the candidates of widths 1 .. `max_index_columns` are the orderings of that many distinct columns of one accessed table |
| CophyEnumeration.CandidatesMeaning | selection/algorithms/cophy_algorithm.py:35-39 | the candidates are, each once, exactly the distinct-column sequences of length 1 .. `max_index_columns` over the columns the queries access on one table |
| CophyEnumeration.AddPermutations | selection/algorithms/cophy_algorithm.py:38-39 | the innermost loop adds the orderings of one table's columns to the candidate set |
| CophyEnumeration.AddWidth | selection/algorithms/cophy_algorithm.py:37-39 | the loop over the tables adds every table's orderings of one width |
| CophyEnumeration.CandidateIndexes | selection/algorithms/cophy_algorithm.py:35-39 | the loops build the candidates that `CandidatesMeaning` characterises |
| CophyEnumeration.CombinationsMeaning | selection/algorithms/cophy_algorithm.py:46 | `itertools.combinations(s, n)` yields exactly the subsequences of `s` of length `n` |
| CophyEnumeration.CombinationsMeaningCons | selection/algorithms/cophy_algorithm.py:46 | the same, for a non-empty sequence and a positive length |
| CophyEnumeration.LedMeaning | selection/algorithms/cophy_algorithm.py:46 | the combinations led by the first element are that element followed by a combination of the rest |
| CophyEnumeration.CombinationsCons | selection/algorithms/cophy_algorithm.py:46 | the combinations are those led by the first element and those of the rest |
| CophyEnumeration.SubsequenceCons | selection/algorithms/cophy_algorithm.py:46 | a subsequence either starts with the first element or is a subsequence of the rest |
| CophyEnumeration.SubsequenceOfDistinct | selection/algorithms/cophy_algorithm.py:46 | a subsequence of distinct elements is distinct and drawn from them |
| CophyEnumeration.AllCombinationsMeaning | selection/algorithms/cophy_algorithm.py:45-46 | every enumerated combination is a subsequence of 1 .. `max_indexes_per_query` candidates, and of distinct candidates when they are distinct |
| CophyEnumeration.CostsUnderAt | selection/algorithms/cophy_algorithm.py:49-51 | the j-th cost is the j-th query's cost under the combination |
| CophyEnumeration.EntryOfMeaning | selection/algorithms/cophy_algorithm.py:47-53 | an entry lists every query's cost under the combination, its dict holds exactly the queries made strictly cheaper, and the combination is useful exactly when that dict is non-empty (see also selection/algorithms/cophy_input_generation.py:48-54) |
| CophyEnumeration.RecordedMeaning | selection/algorithms/cophy_algorithm.py:54-55 | an entry is recorded exactly when its combination was enumerated and makes some query cheaper |
| CophyEnumeration.RecordedConcat | selection/algorithms/cophy_algorithm.py:45-57 | recording two runs of combinations one after the other is recording their concatenation |
| CophyEnumeration.IndexesInMeaning | selection/algorithms/cophy_algorithm.py:56-57 | the collected indexes are exactly those of recorded combinations |
| CophyEnumeration.IndexesInConcat | selection/algorithms/cophy_algorithm.py:56-57 | collecting over two runs of entries concatenates the collections |
| CophyEnumeration.EvaluateCombination | selection/algorithms/cophy_algorithm.py:47-53 | the query loop computes the entry of one combination and whether it is useful |
| CophyEnumeration.RecordCombinations | selection/algorithms/cophy_algorithm.py:46-57 | the loop over the combinations of one size records the useful ones and collects their indexes |
| CophyEnumeration.EnumerateCombinations | selection/algorithms/cophy_algorithm.py:42-57 | every combination of 1 .. `max_indexes_per_query` candidates is evaluated, the useful ones recorded and their indexes collected |
| CophyEnumeration.UsefulIndexesMeaning | selection/algorithms/cophy_algorithm.py:42-57 | the useful indexes are the seed and every index of a recorded combination, each once, and nothing else |
| CophyEnumeration.DistinctMultiplicity | selection/algorithms/cophy_algorithm.py:67 | an element of a repetition-free list occurs at most once |
| CophyEnumeration.DistinctPermuted | selection/algorithms/cophy_algorithm.py:67 | a reordering of a repetition-free list is repetition-free |
| CophyEnumeration.SameElements | selection/algorithms/cophy_algorithm.py:67 | a reordering has the same elements |
| CophyEnumeration.NumberedOf | selection/algorithms/cophy_algorithm.py:67-70 | on distinct indexes the ids are 1 .. n in order, and every row carries its index's size and names |
| CophyEnumeration.NumberIndexes | selection/algorithms/cophy_algorithm.py:64-70 | numbering fails with an AssertionError exactly when some useful index has no size; otherwise it numbers the indexes sorted by their column tuples 1 .. n |
| CophyEnumeration.NumberStep | selection/algorithms/cophy_algorithm.py:67-70 | one more sorted index gets the next id and its row |
| CophyEnumeration.AllSizedSorted | selection/algorithms/cophy_algorithm.py:67-68 | sorting does not change whether every index has a size |
| CophyEnumeration.SortedUseful | selection/algorithms/cophy_algorithm.py:67 | the sorted useful indexes are a repetition-free, sorted reordering of them |
| CophyEnumeration.IdListDecodes | selection/algorithms/cophy_algorithm.py:75-77 | a combination's ids decode back to its indexes through the sorted list |
| CophyEnumeration.CombiRowsOfAt | selection/algorithms/cophy_algorithm.py:75-77 | the i-th `combi` row belongs to the i-th recorded combination |
| CophyEnumeration.CombinationRows | selection/algorithms/cophy_algorithm.py:74-77 | the loop emits one `combi` row per recorded combination, in order |
| CophyEnumeration.RecordedNumbered | selection/algorithms/cophy_algorithm.py:67-77 | the recorded combinations' indexes all have ids once numbering succeeds |
| CophyEnumeration.QueryCostRows | selection/algorithms/cophy_algorithm.py:83-88 | the rows of one query: its base row, then its cheaper combinations |
| CophyEnumeration.CostRows | selection/algorithms/cophy_algorithm.py:80-88 | the loop emits the rows of every query in turn |
| CophyEnumeration.QueryRowsAgree | selection/algorithms/cophy_algorithm.py:87-88 | the list test and the dict test select the same rows with the same costs, for one query (see also selection/algorithms/cophy_input_generation.py:88-89) |
| CophyEnumeration.RowsAgree | selection/algorithms/cophy_algorithm.py:87-88 | the same for all queries (see also selection/algorithms/cophy_input_generation.py:88-89) |
| CophyEnumeration.RecordedConsistent | selection/algorithms/cophy_input_generation.py:48-56 | the recorded entries carry the dicts of their cost lists |
| CophyEnumeration.QueryRowsMeaning | selection/algorithms/cophy_algorithm.py:83-88 | a query's rows are its base row and exactly one row per recorded combination that makes it cheaper, with that cost |
| CophyEnumeration.RowsMeaning | selection/algorithms/cophy_algorithm.py:80-88 | `param f4` has a base row for every query, no other row for combination 0, and otherwise one row per cheaper (query, combination) pair |
| CophyEnumeration.RowsUnfold | selection/algorithms/cophy_algorithm.py:81-88 | the rows of n + 1 queries are those of n followed by the last one's |
| CophyEnumeration.RowsHaveBase | selection/algorithms/cophy_algorithm.py:83 | every query has its base row |
| CophyEnumeration.RowsZero | selection/algorithms/cophy_algorithm.py:83 | a row of combination 0 is a base row |
| CophyEnumeration.RowsLater | selection/algorithms/cophy_algorithm.py:84-88 | the rows for combinations above 0 are exactly the cheaper (query, combination) pairs |
| CophyEnumeration.Enumerate | selection/algorithms/cophy_algorithm.py:24-57 | the enumeration loops compute `Enumerated`, whose meaning `EnumeratedMeaning` states |
| CophyEnumeration.EnumeratedMeaning | selection/algorithms/cophy_algorithm.py:24-57 | base costs are the queries' costs without indexes; a combination is recorded exactly when it is an enumerated choice of 1 .. `max_indexes_per_query` distinct candidates that makes some query strictly cheaper; the useful indexes are the seed and those of recorded combinations, each once |
| CophyEnumeration.LinesMeaning | selection/algorithms/cophy_algorithm.py:64-88 | the printed lines carry exactly the rows, in order |
| CophyEnumeration.PositionsAt | selection/algorithms/cophy_algorithm.py:81-83 | the j-th query is tagged j + 1 |
| CophyEnumeration.EnumerationNumbered | selection/algorithms/cophy_algorithm.py:64-77 | the sorted useful indexes are numbered and cover every recorded combination |
| CophyEnumeration.QueryNumbers | selection/algorithms/cophy_input_generation.py:85 | the tags are the queries' numbers, in order |
| CophyEnumeration.Tabulate | selection/algorithms/cophy_algorithm.py:19-88 | enumeration, numbering and rows together compute `Tabulated` |
| CophyEnumeration.TabulatedFails | selection/algorithms/cophy_algorithm.py:67-68 | the tables fail exactly when some useful index has no size, with an AssertionError |
| CophyEnumeration.TabulatedSizes | selection/algorithms/cophy_algorithm.py:64-70 | `param a` gives the sorted useful indexes, each once, the ids 1 .. n with their sizes and column names |
| CophyEnumeration.TabulatedCombis | selection/algorithms/cophy_algorithm.py:74-77 | `combi[i]` lists the ids of the i-th recorded combination's indexes, which decode back to those indexes in order |
| CophyEnumeration.CombiAt | selection/algorithms/cophy_algorithm.py:75-77 | the i-th `combi` row's ids decode to the i-th recorded combination |
| CophyEnumeration.TabulatedCosts | selection/algorithms/cophy_algorithm.py:80-88 | whichever test selects the rows, `param f4` has every query's base row, no other row for combination 0, and (q, i, c) for i > 0 exactly when the i-th recorded combination makes query q strictly cheaper, at cost c (see also selection/algorithms/cophy_input_generation.py:82-89) |
| CophyInputGeneration.DefaultParameters | selection/algorithms/cophy_input_generation.py:9 | the defaults are index width 2 and one index per query, nothing else |
| CophyInputGeneration.CalculateBestIndexes | selection/algorithms/cophy_input_generation.py:19-92 | the enumeration and printing loops emit `AmplInput` (with the two-argument `Workload`); the result is the empty list, or the AssertionError of an index without a size |
| CophyInputGeneration.AmplInputAsWrittenFails | selection/algorithms/cophy_input_generation.py:26-60 | as written nothing is ever printed: a TypeError as soon as there is a query, an AttributeError without queries; as intended the only failure is the AssertionError |
| CophyInputGeneration.AmplInputFails | selection/algorithms/cophy_input_generation.py:68-69 | printing fails exactly when some useful index has no size |
| CophyInputGeneration.PrintedLayout | selection/algorithms/cophy_input_generation.py:66-90 | the printed data is the `param a` header, one line per size row, the closing `;`, `combi[0]`, one line per combination, the `param f4` header, exactly the cost rows, and the closing `;` |
| CophyInputGeneration.FramedLayout | selection/algorithms/cophy_input_generation.py:66-90 | where each part lies in lines framed as the printed data is |
| CophyInputGeneration.AmplCostRows | selection/algorithms/cophy_input_generation.py:82-89 | each query's base row is (query.nr, 0, cost without indexes), and (nr, i, c) with i > 0 appears exactly when the i-th recorded combination's dict holds a query numbered nr, at cost c; the dict holds exactly the queries the combination makes strictly cheaper |
| CophyInputExpanded.DefaultParameters | selection/algorithms/cophy_input_expanded.py:20-28 | the defaults name exactly seven parameters, with index width 2, one index per query and a dict naming no extra algorithm |
| CophyInputExpanded.DefaultSettings | selection/algorithms/cophy_input_expanded.py:20-28 | the defaults read as width 2, one index per query, `benchmark`, `cophy_json`, `cophy_data`, no overwrite, and the `None` dict |
| CophyInputExpanded.KeysOf | selection/algorithms/cophy_input_expanded.py:216 | the keys of a dict, in order |
| CophyInputExpanded.FilenameComponentMeaning | selection/algorithms/cophy_input_expanded.py:215-218 | the component exists exactly for dicts (otherwise an AttributeError); it lists their keys sorted, splits back into them when no key holds a '-', and does not depend on the keys' order |
| CophyInputExpanded.FilePathsShareStem | selection/algorithms/cophy_input_expanded.py:40-56 | both file names exist exactly for a dict of extra algorithms and share the same stem, in their own directories with their own extensions |
| CophyInputExpanded.OutputChecksAsWrittenMisses | selection/algorithms/cophy_input_expanded.py:40-61 | as written, a `json_path` without a `file_path` raises UnboundLocalError, and with both paths set an existing JSON file never stops the run |
| CophyInputExpanded.OutputChecksMeaning | selection/algorithms/cophy_input_expanded.py:40-61 | as intended, the checks fail only for an `extra_algorithms` without `keys()` when a path is set, and stop the run exactly when a set path's file exists and `overwrite` is off |
| CophyInputExpanded.ExpandedAsWrittenFails | selection/algorithms/cophy_input_expanded.py:75-125 | as written no dict is ever built: a run the checks let pass fails, with an AttributeError when the extra algorithms name a known algorithm (its `calculate_best_indexes` reads the undefined `cache_hits`) or there are no queries, and otherwise with a TypeError; as intended the same run builds the dict unless a useful index has no size |
| CophyInputExpanded.QueryNumberList | selection/algorithms/cophy_input_expanded.py:131-133 | `queries` lists every query's number, in workload order |
| CophyInputExpanded.CalculateBestIndexes | selection/algorithms/cophy_input_expanded.py:36-188 | the checks, the enumeration and the dict as `Expanded` says; the result is the empty list |
| CophyInputExpanded.ExpandedDictMeaning | selection/algorithms/cophy_input_expanded.py:123-180 | the dict counts the useful indexes and the recorded combinations, has one `index_costs` entry per useful index and one `combi` entry per recorded combination, lists every `query.nr` in order, and its `f4` holds exactly the rows cophy_input_generation.py prints; it is missing exactly when a useful index has no size |
| CophyInputExpanded.ExpandedOutcomes | selection/algorithms/cophy_input_expanded.py:36-188 | the run ends with an error from the checks, a stop when a file exists that must not be overwritten, the AttributeError of an `extra_algorithms` without `keys()`, or the dict (or the AssertionError of an index without a size) |
| CophyExpanded.DefaultParametersAsWritten | selection/algorithms/cophy_expanded.py:20 | as written the defaults name six parameters and `extra_algorithms` is the text 'none' |
| CophyExpanded.DefaultParameters | selection/algorithms/cophy_expanded.py:20 | as intended the same defaults, except that `extra_algorithms` is a dict naming no algorithm |
| CophyExpanded.HeuristicOfMeaning | selection/algorithms/cophy_expanded.py:122-145 | the heuristic indexes hold each index once, and exactly those some known algorithm named in the dict selects |
| CophyExpanded.HeuristicOfDistinct | selection/algorithms/cophy_expanded.py:134-145 | the union holds each index once |
| CophyExpanded.HeuristicOfMembers | selection/algorithms/cophy_expanded.py:136-144 | unknown names are skipped; the union is exactly what the known ones select |
| CophyExpanded.ExtraAlgorithms | selection/algorithms/cophy_expanded.py:134-145 | the loop computes the heuristic indexes, or the AttributeError of a value without `keys()` |
| CophyExpanded.ExpandedAsWrittenFails | selection/algorithms/cophy_expanded.py:37-81 | as written no data file is ever written: the run stops early exactly where the intended one does, and wherever the intended one writes it fails instead: with an AttributeError when the extra algorithms name a known algorithm (lines 142-144, whose `calculate_best_indexes` reads the undefined `cache_hits`) or there are no queries, and otherwise with a TypeError |
| CophyExpanded.CalculateBestIndexes | selection/algorithms/cophy_expanded.py:29-120 | the file check, the extra algorithms, the enumeration and the file lines as `Expanded` says; the result is the empty list |
| CophyExpanded.WrittenPieces | selection/algorithms/cophy_expanded.py:77-118 | the file consists of the preamble, `param a`, the combinations and `param f4` |
| CophyExpanded.WrittenLayout | selection/algorithms/cophy_expanded.py:77-118 | the fixed lines lie where the file writes them: the two counts, `data;`, the `param a` header and end, `combi[0]`, the `param f4` header and end |
| CophyExpanded.WrittenSizeRows | selection/algorithms/cophy_expanded.py:94-99 | after the preamble, one line per size row, in order |
| CophyExpanded.WrittenCombiRows | selection/algorithms/cophy_expanded.py:103-106 | after `combi[0]`, one line per combination row, in order |
| CophyExpanded.WrittenCostRows | selection/algorithms/cophy_expanded.py:109-118 | after the `param f4` header, one line per cost row, in order, then the end |
| CophyExpanded.CostLinesAt | selection/algorithms/cophy_expanded.py:112-117 | each cost line sits at its row's position |
| CophyExpanded.WrittenCostLines | selection/algorithms/cophy_expanded.py:109-118 | the file's cost lines are exactly the rows of `param f4` |
| CophyExpanded.ExpandedOutcomes | selection/algorithms/cophy_expanded.py:29-120 | the run ends with the AttributeError of an `extra_algorithms` without `keys()`, a stop when the file exists and `overwrite` is off, the AssertionError of an index without a size, or the written file |
| CophyExpanded.WrittenCountsAndSeed | selection/algorithms/cophy_expanded.py:58-98 | the first two lines count the size rows and the combination rows, and `param a` holds exactly the heuristic indexes and those of recorded combinations, each once |
| CophyExpanded.SeededCostsAsCophy | selection/algorithms/cophy_expanded.py:58-117 | the heuristic indexes change only `param a` and the combination ids: `param f4` is that of cophy_algorithm.py, and without heuristic indexes the tables are the same |
| CophyExpanded.DefaultsAsWrittenFail | selection/algorithms/cophy_expanded.py:20-150 | as written the defaults cannot run: `keys()` is called on the text 'none' |
| CophyExpanded.DefaultSettings | selection/algorithms/cophy_expanded.py:20 | the intended defaults, read |
| CophyExpanded.DefaultsRun | selection/algorithms/cophy_expanded.py:20-73 | with the intended defaults the file is `cophy_data_files/data/_2_1-None.dat`, no other algorithm runs, and the tables are those of cophy_algorithm.py |
| CophyExpanded.DefaultDataFile | selection/algorithms/cophy_expanded.py:32 | the intended defaults name that file |
| IlpActualResults.SettingsOf | selection/algorithms/ilp_actual_results.py:10-24 | there are no defaults: the settings fail exactly when a parameter is missing (KeyError) or of another kind |
| IlpActualResults.ReadTables | selection/algorithms/ilp_actual_results.py:34-47 | the two loops build the index table and the combination table that `IndexTableKeys`, `IndexTableLastWins` and `CombinationTableMeaning` describe |
| IlpActualResults.CollectColumns | selection/algorithms/ilp_actual_results.py:50-53 | the loops store every query column under its name, as `ColumnTableMeaning` describes |
| IlpActualResults.ExponentAt | selection/algorithms/ilp_actual_results.py:69 | the exponent mark, if any, is an `e` or `E` |
| IlpActualResults.Pow10 | selection/algorithms/ilp_actual_results.py:69 | a power of ten is at least one |
| IlpActualResults.Zeros | selection/algorithms/ilp_actual_results.py:69 | `k` zero digits have length `k` |
| IlpActualResults.IntegralDigitsAreDigits | selection/algorithms/ilp_actual_results.py:69 | moving the decimal point keeps digits digits |
| IlpActualResults.ZerosAreDigits | selection/algorithms/ilp_actual_results.py:69 | zero padding is digits |
| IlpActualResults.ChooseBlock | selection/algorithms/ilp_actual_results.py:66-75 | the scan computes `ChosenLine`, which `ChosenLineFound`, `ChosenLineNone` and `ChosenLineFails` characterise |
| IlpActualResults.Lookup | selection/algorithms/ilp_actual_results.py:74-85 | looking up a token fails only with a ValueError (not a number) or a KeyError (unknown combination) |
| IlpActualResults.SelectIds | selection/algorithms/ilp_actual_results.py:83-86 | the loops compute `SelectedIds`, which `SelectedIdsSucceed` and `SelectedIdsContents` characterise |
| IlpActualResults.SelectedPrefixFailure | selection/algorithms/ilp_actual_results.py:84-86 | a failure on a prefix of the tokens is the failure of the whole loop |
| IlpActualResults.BuildSolution | selection/algorithms/ilp_actual_results.py:88-97 | the loop and the size assertion compute `Solution`, which `SolutionMeaning` characterises |
| IlpActualResults.RebuiltPrefixFailure | selection/algorithms/ilp_actual_results.py:90-96 | a failure on a prefix of the ids is the failure of the whole loop |
| IlpActualResults.Calculate | selection/algorithms/ilp_actual_results.py:26-100 | the whole computation after the benchmark case is `BestIndexesFrom` |
| IlpActualResults.CalculateBestIndexesAsWritten | selection/algorithms/ilp_actual_results.py:26-100 | as written, a TPC-H run always fails with a TypeError from `Column("s_acctbal")` |
| IlpActualResults.CalculateBestIndexes | selection/algorithms/ilp_actual_results.py:26-100 | as intended, with `s_acctbal` placed on the table of `s_suppkey` |
| IlpActualResults.DigitsHaveNoPoint | selection/algorithms/ilp_actual_results.py:69 | a string of digits holds no decimal point |
| IlpActualResults.DigitsWithZeros | selection/algorithms/ilp_actual_results.py:69 | appending `k` zero digits multiplies the value by `10 ** k` |
| IlpActualResults.DigitsWithZero | selection/algorithms/ilp_actual_results.py:69 | appending one zero digit multiplies the value by ten |
| IlpActualResults.TimesTen | selection/algorithms/ilp_actual_results.py:69 | ten times `10 ** (k - 1)` is `10 ** k` |
| IlpActualResults.MantissaOfDigits | selection/algorithms/ilp_actual_results.py:69 | a mantissa without a point is its digits |
| IlpActualResults.MantissaOfPointed | selection/algorithms/ilp_actual_results.py:69 | a mantissa with a point splits there |
| IlpActualResults.ExponentAtNone | selection/algorithms/ilp_actual_results.py:69 | without an exponent mark the exponent position is the length |
| IlpActualResults.ExponentAtFirst | selection/algorithms/ilp_actual_results.py:69 | the exponent position is that of the first mark |
| IlpActualResults.UnsignedFloatOfDigits | selection/algorithms/ilp_actual_results.py:69 | digits alone read back as their value |
| IlpActualResults.UnsignedFloatOfPointed | selection/algorithms/ilp_actual_results.py:69 | digits, a point and digits read back as the value before the point |
| IlpActualResults.UnsignedScaled | selection/algorithms/ilp_actual_results.py:69 | digits, `e+` and exponent digits read back as the number times that power of ten |
| IlpActualResults.FloatToIntOfScaled | selection/algorithms/ilp_actual_results.py:69 | a storage budget in exponent form reads back as the number times that power of ten |
| IlpActualResults.ScaledParts | selection/algorithms/ilp_actual_results.py:69 | where the parts of a numeral in exponent form sit |
| IlpActualResults.FloatToIntScaledAt | selection/algorithms/ilp_actual_results.py:69 | the exponent form read over its positions |
| IlpActualResults.SignedScaled | selection/algorithms/ilp_actual_results.py:69 | the same without a sign |
| IlpActualResults.FloatToIntOfFiveHundredMb | selection/algorithms/ilp_actual_results.py:69-73 | `int(float("5e+08"))` is 500,000,000, the budget of 500 MB in bytes |
| IlpActualResults.StripUnpadded | selection/algorithms/ilp_actual_results.py:69 | text without surrounding white space is its own strip |
| IlpActualResults.FloatToIntUnpadded | selection/algorithms/ilp_actual_results.py:69 | text that needs no stripping is read by the signed reader |
| IlpActualResults.FloatToIntOfDigits | selection/algorithms/ilp_actual_results.py:69 | a numeral without sign reads back as its value |
| IlpActualResults.DigitsUnpadded | selection/algorithms/ilp_actual_results.py:69 | digits start with a digit and end without white space |
| IlpActualResults.SignedOfDigits | selection/algorithms/ilp_actual_results.py:69 | the signed reader reads digits as their value |
| IlpActualResults.FloatToIntOfFraction | selection/algorithms/ilp_actual_results.py:69 | a fraction after the digits is cut off |
| IlpActualResults.SignedOfPointed | selection/algorithms/ilp_actual_results.py:69 | the signed reader cuts a fraction off |
| IlpActualResults.LastOfPointed | selection/algorithms/ilp_actual_results.py:69 | a numeral with a fraction does not end in white space |
| IlpActualResults.FloatToIntOfNegated | selection/algorithms/ilp_actual_results.py:69 | a numeral after a minus sign reads back negated |
| IlpActualResults.SignedOfNegated | selection/algorithms/ilp_actual_results.py:69 | the signed reader negates after a minus sign |
| IlpActualResults.FloatToIntOfNegatedFraction | selection/algorithms/ilp_actual_results.py:69 | a negative numeral with a fraction truncates toward zero |
| IlpActualResults.SignedOfNegatedFraction | selection/algorithms/ilp_actual_results.py:69 | the signed reader truncates a negative fraction toward zero |
| IlpActualResults.SignedOfNegatedPointed | selection/algorithms/ilp_actual_results.py:69 | the same, for the joined text |
| IlpActualResults.PointedAfterSign | selection/algorithms/ilp_actual_results.py:69 | what follows the sign reads as the digits before the point |
| IlpActualResults.SignedOfNegative | selection/algorithms/ilp_actual_results.py:69 | a leading minus sign negates what the rest reads as |
| IlpActualResults.FloatToIntOfInt | selection/algorithms/ilp_actual_results.py:69 | a budget printed as an integer reads back as that integer, and a fraction after it is cut off toward zero, negative budgets included |
| IlpActualResults.FloatToIntOfNat | selection/algorithms/ilp_actual_results.py:69 | the same for a non-negative budget |
| IlpActualResults.FloatToIntOfNegativeInt | selection/algorithms/ilp_actual_results.py:69 | the same for a negative budget |
| IlpActualResults.NegativeNumeral | selection/algorithms/ilp_actual_results.py:69 | a negative number prints as a minus sign and the digits of its negation |
| IlpActualResults.IndexTableKeys | selection/algorithms/ilp_actual_results.py:37-42 | the index table holds exactly the ids of the entries |
| IlpActualResults.IndexTableLastWins | selection/algorithms/ilp_actual_results.py:37-42 | each id holds the last entry with that id |
| IlpActualResults.CombinationTableMeaning | selection/algorithms/ilp_actual_results.py:45-47 | the combination table holds the ids of the entries, each with the index ids of its last entry |
| IlpActualResults.CombinationTableKeys | selection/algorithms/ilp_actual_results.py:45-47 | the combination table holds exactly the ids of the entries |
| IlpActualResults.CombinationTableLastWins | selection/algorithms/ilp_actual_results.py:45-47 | each combination id holds its last entry's index ids |
| IlpActualResults.AddColumnsMeaning | selection/algorithms/ilp_actual_results.py:52-53 | storing columns keeps every column under its own name and adds exactly their names |
| IlpActualResults.ColumnTableMeaning | selection/algorithms/ilp_actual_results.py:50-53 | a column is found under a name exactly when some query uses a column of that name, and it carries that name |
| IlpActualResults.BenchmarkColumnsFixed | selection/algorithms/ilp_actual_results.py:54-58 | as written the TPC-H case always fails with a TypeError; as intended it adds `s_acctbal` on the table of `s_suppkey` and leaves every other column as it was; other benchmarks are untouched |
| IlpActualResults.AllKnownSnoc | selection/algorithms/ilp_actual_results.py:84-85 | every token of a longer list is known exactly when those before are and the last one is |
| IlpActualResults.EverySnoc | selection/algorithms/ilp_actual_results.py:84-85 | a property of every element of a longer list holds exactly when it holds for the prefix and the last element |
| IlpActualResults.SelectedIdsSucceed | selection/algorithms/ilp_actual_results.py:83-86 | the selection succeeds exactly when every token is a known combination id; a failure is a ValueError or a KeyError |
| IlpActualResults.NamedSnoc | selection/algorithms/ilp_actual_results.py:84-86 | one more token adds the ids of its combination |
| IlpActualResults.SelectedIdsContents | selection/algorithms/ilp_actual_results.py:83-86 | a successful selection holds each index id of the named combinations once, and nothing else |
| IlpActualResults.RebuiltMeaning | selection/algorithms/ilp_actual_results.py:90-96 | rebuilding succeeds exactly when every selected id is known, has columns and all its column names are known; then one index per id, in order, on the named columns |
| IlpActualResults.SolutionMeaning | selection/algorithms/ilp_actual_results.py:88-97 | the solution exists exactly when every selected id can be rebuilt and their sizes fit the limit; it has one index per id, in order, and with columns stored under their own names each index has exactly the input's column names |
| IlpActualResults.PassedShift | selection/algorithms/ilp_actual_results.py:66-75 | the blocks passed after the first are those passed of the rest |
| IlpActualResults.ChosenLineFound | selection/algorithms/ilp_actual_results.py:66-75 | the scan gives the ids line of the first block for the budget, after blocks that all parse |
| IlpActualResults.ChosenLineNone | selection/algorithms/ilp_actual_results.py:66-75 | the scan gives nothing exactly when every block parses and none is for the budget |
| IlpActualResults.ChosenLineFails | selection/algorithms/ilp_actual_results.py:66-75 | a failing scan fails with the error of the first block that does not parse |
| IlpActualResults.ParseBlockOfLines | selection/algorithms/ilp_actual_results.py:67-74 | a block written as six lines reads back its budget from the first line and its ids from the sixth |
| IlpActualResults.BestIndexesMeaning | selection/algorithms/ilp_actual_results.py:26-100 | a successful run returns one index per id of the chosen combinations, each id once, their sizes within the budget, each built from exactly the column names the input lists for it |
| IlpActualResults.CalculatedColumnsAsListed | selection/algorithms/ilp_actual_results.py:50-96 | with the TPC-H column fixed, a successful run rebuilds every index with exactly the input's column names; as written a TPC-H run never succeeds |
| DexterAlgorithm.DefaultParameters | selection/algorithms/dexter_algorithm.py:10 | the only default is a minimum saving of 5 percent |
| DexterAlgorithm.StatementIsFirstSelect | selection/database_connector.py:36-44 | a statement exists exactly when some part names a selection; it is the first part that selects and is not a view creation |
| DexterAlgorithm.Command | selection/algorithms/dexter_algorithm.py:26-34 | the command line is `dexter <db> --min-cost-savings-pct <p> -s " <statement>"`; a query without a selection statement makes it a TypeError |
| DexterAlgorithm.SplitContains | selection/algorithms/dexter_algorithm.py:52-53 | text that contains the separator splits into at least two parts |
| DexterAlgorithm.SplitFirst | selection/algorithms/dexter_algorithm.py:53-55 | the first part of a split is a prefix of the text |
| DexterAlgorithm.SplitSecond | selection/algorithms/dexter_algorithm.py:53-55 | with two parts or more, the text is the first part, the separator, the second part and the rest |
| DexterAlgorithm.JoinTwo | selection/algorithms/dexter_algorithm.py:55 | a join of two or more parts starts with the first, the separator and the second |
| DexterAlgorithm.ContainsInPrefix | selection/algorithms/dexter_algorithm.py:52 | an occurrence in a prefix is an occurrence in the whole |
| DexterAlgorithm.RecommendationSource | selection/algorithms/dexter_algorithm.py:52-55 | a recommendation was read from output that is text without `public.`, then `public.`, the table name, ` (`, the column names joined by `, `, and the rest |
| DexterAlgorithm.SplitChain | selection/algorithms/dexter_algorithm.py:53-55 | the pieces of the three successive splits |
| DexterAlgorithm.ChainWitness | selection/algorithms/dexter_algorithm.py:53-55 | those pieces put back together give the output |
| DexterAlgorithm.RecommendationNone | selection/algorithms/dexter_algorithm.py:52 | the output recommends nothing exactly when it does not mention `public.` |
| DexterAlgorithm.Resolve | selection/algorithms/dexter_algorithm.py:58-65 | a resolved column is a query column with that name on the recommended table, and None exactly when the query has no such column |
| DexterAlgorithm.ResolveAll | selection/algorithms/dexter_algorithm.py:56-66 | one resolution per recommended name, in order |
| DexterAlgorithm.QueryColumns | selection/algorithms/dexter_algorithm.py:26-69 | the loop body for one query computes its contribution |
| DexterAlgorithm.ReadRecommendation | selection/algorithms/dexter_algorithm.py:52-55 | the table and the column names read from the output |
| DexterAlgorithm.ResolveColumns | selection/algorithms/dexter_algorithm.py:56-66 | the inner loop resolves every recommended name against the query's columns |
| DexterAlgorithm.CalculateBestIndexes | selection/algorithms/dexter_algorithm.py:19-70 | the loop over the queries computes `IndexColumns`, which `IndexColumnsSucceed` and `IndexColumnsContents` characterise |
| DexterAlgorithm.IndexColumnsPrefixFailure | selection/algorithms/dexter_algorithm.py:25-69 | a failure on a prefix of the queries is the failure of the whole loop |
| DexterAlgorithm.ContributedSnoc | selection/algorithms/dexter_algorithm.py:25-69 | one more query adds exactly its contribution |
| DexterAlgorithm.IndexColumnsSucceed | selection/algorithms/dexter_algorithm.py:25-69 | the run succeeds exactly when every query's command is built and its recommendation read |
| DexterAlgorithm.IndexColumnsContents | selection/algorithms/dexter_algorithm.py:67-70 | the result holds each contributed column list once and nothing else, at most one per query |
| DexterAlgorithm.ContributionShape | selection/algorithms/dexter_algorithm.py:52-66 | a contributed list is non-empty; each entry is the query column of that name on the recommended table, or None |
| DexterAlgorithm.AsIndex | selection/algorithms/dexter_algorithm.py:70 | a fully resolved, non-empty list stands for the index on exactly those columns |
| QueryGeneration.BlankRun | selection/query_generator.py:71 | the run of blanks (`[  \n]*`) from a position: every character skipped is a blank, and the one it stops at is not |
| QueryGeneration.MatchEnd | selection/query_generator.py:71 | a match of `((from)\|,)[  \n]*\(` starting at a position begins with `from` or `,` and ends just after a `(` |
| QueryGeneration.Close | selection/query_generator.py:72-80 | the `while counter > 0` scan ends within the text, or fails with an IndexError when the text ends first |
| QueryGeneration.CloseMatches | selection/query_generator.py:72-80 | the scan stops just after the `)` that closes the open parentheses: the text read is exactly that many short of balanced, and no shorter prefix is |
| QueryGeneration.ClosingParenthesis | selection/query_generator.py:72-80 | the loop computes the scan `Close` with one parenthesis open |
| QueryGeneration.NextWordIsSplit | selection/query_generator.py:81 | the next word is the one the `lstrip().split(' ')[0].split('\n')[0]` chain gives |
| QueryGeneration.Found | selection/query_generator.py:72-84 | a position kept for a match lies just after the closing parenthesis, and the next word there starts with `)` or `,` or is `limit`, `order` or `where` |
| QueryGeneration.PrependTwice | selection/query_generator.py:84 | appending positions in two steps is appending them at once |
| QueryGeneration.AliasPositionsSound | selection/query_generator.py:71-84 | each alias position lies just after the parenthesis closing a `(` that follows `from` or `,` and blanks, the next word there qualifies, and it is within the text |
| QueryGeneration.SoundAfterSkip | selection/query_generator.py:71 | where no match starts, soundness of the scan from the next position carries back |
| QueryGeneration.SoundAfterMatch | selection/query_generator.py:71-84 | after a match, soundness of the scan from its end carries back to its start |
| QueryGeneration.WithAliases | selection/query_generator.py:85-86 | the text grows by one ` as alias123 ` per position |
| QueryGeneration.DescendingBelowFirst | selection/query_generator.py:85 | in a descending list every position is at most the first |
| QueryGeneration.InsertedPrefix | selection/query_generator.py:85-86 | insertions inside a prefix leave the rest of the text alone |
| QueryGeneration.InsertedIsWithAliases | selection/query_generator.py:85-86 | inserting right-most first puts the alias at every original offset |
| QueryGeneration.Positions | selection/query_generator.py:70-84 | every alias position is within the query text |
| QueryGeneration.Descend | selection/query_generator.py:85 | `sorted(positions, reverse=True)` is a descending permutation of the positions |
| QueryGeneration.DescendInRange | selection/query_generator.py:85 | sorting keeps every position within the text |
| QueryGeneration.AddAliasMeaning | selection/query_generator.py:68-87 | `_add_alias_subquery` fails exactly when the scan does; otherwise the alias goes in at every position found, at the original offsets |
| QueryGeneration.AddAliasNoSubquery | selection/query_generator.py:68-87 | a text without a subquery that needs an alias comes back unchanged |
| QueryGeneration.FoundAt | selection/query_generator.py:72-84 | the parenthesis scan and the next-word test compute `Found` |
| QueryGeneration.ScanSkip | selection/query_generator.py:71 | no match at a position: the scan moves on by one |
| QueryGeneration.ScanFound | selection/query_generator.py:71-84 | a failure at a match fails the scan; otherwise its position is added and the scan resumes where the match ended |
| QueryGeneration.ScanTurn | selection/query_generator.py:71-84 | one turn of the `re.finditer` loop keeps the positions found so far consistent with `AliasPositions` and makes progress |
| QueryGeneration.ScanPositions | selection/query_generator.py:70-84 | the `re.finditer` loop collects exactly `AliasPositions` |
| QueryGeneration.Splice | selection/query_generator.py:85-86 | the `for pos in sorted(...)` loop performs the insertions `Inserted` |
| QueryGeneration.AddAliasSubquery | selection/query_generator.py:68-87 | the method with its loops computes `AddAlias` |
| QueryGeneration.ChunkParts | selection/query_generator.py:31-35 | a chunk gives a query exactly when it contains `)\n`; otherwise it is skipped |
| QueryGeneration.ChunkPartsMeaning | selection/query_generator.py:31-35 | the number is the integer before the first `)\n` and the text the aliased rest; a non-integer number or a failed alias scan is an error |
| QueryGeneration.ChunkQuery | selection/query_generator.py:31-37 | a query built from a chunk carries the chunk's number and its aliased text, lower-cased, and exists exactly for chunks containing `)\n`; as written, with the connector passed, building it is a TypeError |
| QueryGeneration.Parsed | selection/query_generator.py:30 | one result per chunk |
| QueryGeneration.ParsedAt | selection/query_generator.py:30-35 | element `k` of the parts is those of chunk `k` |
| QueryGeneration.RunAsWrittenFails | selection/query_generator.py:36-37 | as written no query is appended, and as soon as the intended loop would append one the run fails with a TypeError |
| QueryGeneration.TpchAsWrittenFails | selection/query_generator.py:30-37 | as written `_generate_tpch` never appends a query; a run that does not fail found no query at all |
| QueryGeneration.RunMeaning | selection/query_generator.py:30-37 | the intended loop fails exactly when some chunk fails; without failure it appends one query per chunk that gives one |
| QueryGeneration.SuccessesCount | selection/query_generator.py:30-35 | the chunks that give a query are those containing `)\n` |
| QueryGeneration.SuccessesCountOf | selection/query_generator.py:30-35 | parts with a value exactly for the chunks with a query count those chunks |
| QueryGeneration.TpchQueriesMeaning | selection/query_generator.py:23-38 | the intended generator fails exactly when some chunk does; without failure it holds one query per chunk that contains `)\n` |
| QueryGeneration.KeptMembers | selection/query_generator.py:19-21 | exactly the queries whose number is listed stay, and there are no more than before |
| QueryGeneration.KeptAll | selection/query_generator.py:19-21 | when every query has a listed number, all stay |
| QueryGeneration.KeptIdempotent | selection/query_generator.py:19-21 | `filter_queries` is idempotent |
| QueryGeneration.KeptConcat | selection/query_generator.py:19-21 | filtering keeps the order: it distributes over concatenation |
| QueryGeneration.QueryGenerator.constructor | selection/query_generator.py:11-15 | a generator starts with the benchmark's name and no queries |
| QueryGeneration.QueryGenerator.FilterQueries | selection/query_generator.py:19-21 | the queries become those of the old list with a listed number, in order |
| QueryGeneration.QueryGenerator.GenerateTpch | selection/query_generator.py:23-38 | the queries become those `TpchQueries` gives for the chunks of the `qgen` output, with its error |
| QueryGeneration.QueryGenerator.AppendQueries | selection/query_generator.py:30-37 | the loop appends the queries `TpchQueries` gives and stops at its error |
| QueryGeneration.QueryGenerator.Generate | selection/query_generator.py:114-133 | TPC-H queries for `tpch`; `tpcds` calls the generator that is commented out, an AttributeError; any other name a NotImplementedError |
| QueryGeneration.RunSnoc | selection/query_generator.py:30-37 | one more chunk is one step of the loop |
| QueryGeneration.RunStops | selection/query_generator.py:30-37 | once a prefix of the chunks has stopped with an error, the whole run has |
| QueryGeneration.TpchTurn | selection/query_generator.py:31-37 | one turn of the loop keeps the queries added consistent with `TpchQueries` |
| QueryGeneration.ChunkStep | selection/query_generator.py:31-37 | the loop body for one chunk builds the query `Built` gives, or the error |
| QueryGeneration.ParseChunk | selection/query_generator.py:31-35 | the split, `_add_alias_subquery` and `int` compute `ChunkParts` |
| TableGeneration.ReplaceChar | selection/table_generator.py:48 | replacing one character keeps the length and maps exactly the occurrences of that character |
| TableGeneration.ReplaceCharConcat | selection/table_generator.py:48 | the replacement distributes over concatenation |
| TableGeneration.ReplaceCharAbsent | selection/table_generator.py:48 | a text without the character is left as it is |
| TableGeneration.ReplaceCharJoin | selection/table_generator.py:48 | mapping the separator character over a join changes only the separators |
| TableGeneration.ReplaceOneChar | selection/table_generator.py:48 | `str.replace` of a one-character pattern maps each character |
| TableGeneration.DatabaseNameMeaning | selection/table_generator.py:46-49 | the name is `indexselection_`, the benchmark, `___` and the scale factor's text with every `.` turned into `_` |
| TableGeneration.DatabaseNameExample | tests/test_table_generator.py:12-15 | TPC-H at scale factor 0.001 is `indexselection_tpch___0_001` |
| TableGeneration.TruncWhole | selection/table_generator.py:165 | `int(x) - x != 0` exactly when `x` is not whole |
| TableGeneration.PrepareMeaning | selection/table_generator.py:148-168 | only TPC-H and TPC-DS are prepared, TPC-DS only at a whole scale factor (otherwise an Exception), any other benchmark is a NotImplementedError |
| TableGeneration.PrepareCommand | selection/table_generator.py:149-164 | the generator runs with the scale factor's text as its third argument, and macOS adds one argument to `make` |
| TableGeneration.PrepareRejects | tests/test_table_generator.py:28-34 | TPC-DS at scale factor 0.002 and an unknown benchmark are rejected |
| TableGeneration.TableFiles | selection/table_generator.py:103-105 | the table files are exactly the listed files whose name contains `.tbl`, `.dat` or `.csv`, in listing order |
| TableGeneration.OnlyAtExtension | selection/table_generator.py:91 | in a name without `.`, a pattern starting with `.` occurs only in the extension |
| TableGeneration.RemoveExtension | selection/table_generator.py:91 | removing its extension from a name without `.` leaves the name |
| TableGeneration.OtherExtensionAbsent | selection/table_generator.py:91 | another extension does not occur in a name with its own |
| TableGeneration.NoExtension | selection/table_generator.py:91 | no extension occurs in a name without `.` |
| TableGeneration.TableOfFileMeaning | selection/table_generator.py:91 | `lineitem.tbl`, `.dat` or `.csv` loads into `lineitem` |
| TableGeneration.DefinitionNameIsSplit | selection/table_generator.py:64 | a column's name is the first word of its definition, as `lstrip().split(' ', 1)[0]` gives it |
| TableGeneration.Names | selection/table_generator.py:63-64 | one name per definition |
| TableGeneration.NamesAt | selection/table_generator.py:63-64 | name `k` is the first word of definition `k` |
| TableGeneration.ColumnsOf | selection/table_generator.py:63-70 | every column read belongs to its table, and there are no more columns than names |
| TableGeneration.ColumnsOfNames | selection/table_generator.py:63-70 | a name gives a column exactly when it is not `primary` |
| TableGeneration.ColumnsOfSnoc | selection/table_generator.py:63-70 | one more name adds its column, unless it is `primary` |
| TableGeneration.StatementTable | selection/table_generator.py:59-70 | a statement's table has a lower-case name and owns every column it defines |
| TableGeneration.Finish | selection/table_generator.py:63-70 | adding a body's columns keeps the table's name |
| TableGeneration.ParseAll | selection/table_generator.py:58 | one parse per statement |
| TableGeneration.ParseAllParsedAs | selection/table_generator.py:58-60 | the parses are those of the statements, position by position |
| TableGeneration.ReadInOrder | selection/table_generator.py:58-70 | the tables read are those of the first statements, in order; all of them when nothing failed |
| TableGeneration.ReadWithoutError | selection/table_generator.py:63 | when nothing failed every statement had a `(` |
| TableGeneration.ReadError | selection/table_generator.py:59-63 | a failure is the IndexError of the first statement without `(`, whose table is the last one appended |
| TableGeneration.TablesInOrder | selection/table_generator.py:51-70 | the tables are those the `create table` statements name, in order, all of them when nothing failed |
| TableGeneration.TablesError | selection/table_generator.py:59-63 | an error is the IndexError of the first statement without `(`; every statement before it has one |
| TableGeneration.ReadErrorParsed | selection/table_generator.py:59-63 | the same for any reading of the statements; the last table kept has no columns |
| TableGeneration.StatementWithoutBody | selection/table_generator.py:59-63 | a statement without `(` gives a table without columns |
| TableGeneration.ParsedBody | selection/table_generator.py:59 | a statement was read with a body exactly when it has a `(` |
| TableGeneration.ParsedWithoutBody | selection/table_generator.py:59-63 | a statement read without a body has no `(` and no columns |
| TableGeneration.ReadSnoc | selection/table_generator.py:58-70 | one more statement appends its table, and fails when it has no `(` |
| TableGeneration.ReadStops | selection/table_generator.py:58-70 | once a prefix of the statements has failed, the whole reading has |
| TableGeneration.TableGenerator.constructor | selection/table_generator.py:11-18 | a generator starts with its benchmark, its scale factor and no tables, columns or table files |
| TableGeneration.TableGenerator.Initialize | selection/table_generator.py:11-168 | `_prepare` fails or sets up the benchmark; then the table files are listed only when the database is missing, and the tables and columns are those of the statements file |
| TableGeneration.TableGenerator.Prepared | selection/table_generator.py:19-29 | after `_prepare`: the table files are listed only when the database is missing, then the statements are read |
| TableGeneration.TableGenerator.ReadColumnNames | selection/table_generator.py:51-70 | the tables of the lower-cased statements after each `create table ` are appended, with all their columns, and the reading's error is returned |
| TableGeneration.TableGenerator.ReadStatements | selection/table_generator.py:58-70 | the loop appends the tables `Read` gives, with their columns |
| TableGeneration.TableGenerator.ReadStatementAt | selection/table_generator.py:59-70 | one statement's table is appended, then its columns unless it has no `(` |
| TableGeneration.TableGenerator.AppendStatement | selection/table_generator.py:59-70 | the statement's table and its columns are appended; the result says whether it had a body |
| TableGeneration.TableGenerator.AppendTable | selection/table_generator.py:60-70 | the table is appended; without a body that is an IndexError, otherwise its columns follow |
| TableGeneration.TableGenerator.ReadDefinitions | selection/table_generator.py:63-70 | the inner loop adds the columns of its definitions to the table appended last and to the generator's columns |
| TableGeneration.TableGenerator.AddColumn | selection/table_generator.py:67-69 | the column is added to the table appended last and to the generator's columns |
| TableGeneration.ExtendLast | selection/table_generator.py:68 | adding one column after others is adding them together |
| TableGeneration.NameAt | selection/table_generator.py:64 | the name read for definition `j` is its first word |
| TableGeneration.StartTable | selection/table_generator.py:59-60 | the table before its columns, and the statement's body; finishing it gives the statement's table |
| ParameterRanges.AsInt | selection/index_selection_evaluation.py:109 | a value `range` accepts is an int or a bool, an int as itself |
| ParameterRanges.ListCount | selection/index_selection_evaluation.py:121-124 | at most one list per parameter is counted |
| ParameterRanges.IntRange | selection/index_selection_evaluation.py:109 | `range(lo, hi)` holds `hi - lo` values (none when `hi <= lo`), the `k`th being `lo + k` |
| ParameterRanges.SetParam | selection/index_selection_evaluation.py:113-114 | setting a key on a copy changes the entries with that key to the value and leaves all others and all keys alone |
| ParameterRanges.WithValues | selection/index_selection_evaluation.py:112-115 | one copy of the configuration per value |
| ParameterRanges.CheckParameters | selection/index_selection_evaluation.py:120-126 | the check raises exactly when more than one parameter is a list |
| ParameterRanges.FindParameterRange | selection/index_selection_evaluation.py:101-118 | the method with its loops computes `ParameterRange` |
| ParameterRanges.AppendCopies | selection/index_selection_evaluation.py:112-115 | the inner loop appends one copy per value, with the key set to that value |
| ParameterRanges.UnfoldStops | selection/index_selection_evaluation.py:107-115 | once a list has raised, the loop has raised that error |
| ParameterRanges.TooManyLists | selection/index_selection_evaluation.py:104-126 | several list parameters raise "Too many parameter lists", and that is the only cause of that error |
| ParameterRanges.UnfoldErrors | selection/index_selection_evaluation.py:109 | the loop fails only with the IndexError or TypeError of building `range(value[0], value[1] + 1)` |
| ParameterRanges.UnfoldWithoutLists | selection/index_selection_evaluation.py:107-115 | without list parameters nothing is appended |
| ParameterRanges.NoListKeepsConfig | selection/index_selection_evaluation.py:116-118 | with no list parameter, or no parameter at all, exactly the configuration itself is returned |
| ParameterRanges.UnfoldOneList | selection/index_selection_evaluation.py:107-115 | with one list parameter the loop yields the copies for its values alone |
| ParameterRanges.ListCountPositive | selection/index_selection_evaluation.py:121-124 | a list at some position counts |
| ParameterRanges.RangeUnfolds | selection/index_selection_evaluation.py:108-118 | a single list `[a, b]` of integers unfolds into one configuration per value from `a` to `b` inclusive; an empty range leaves the configuration itself |
| ParameterRanges.ListUnfolds | selection/index_selection_evaluation.py:108-115 | a single list longer than two whose first two entries are integers unfolds into one configuration per entry, in order |
| ParameterRanges.NonIntegerListRejected | selection/index_selection_evaluation.py:109-111 | a list whose first entry is not an integer raises TypeError even when it is longer than two |
| ParameterRanges.CopiesDifferOnlyAtKey | selection/index_selection_evaluation.py:113-115 | every unfolded configuration has the original's name and keys, and differs only at the list's key, which holds one of the list's values |
| ParameterRanges.FirstJson | selection/index_selection_evaluation.py:157-159 | the argument returned contains `.json`; none is returned exactly when no argument does |
| ParameterRanges.FirstJsonIsFirst | selection/index_selection_evaluation.py:157-159 | it is the earliest such argument |
| ParameterRanges.IndexSelection.constructor | selection/index_selection_evaluation.py:39-43 | the default configuration file is `example_configs/config.json` and CSV output is on |
| ParameterRanges.IndexSelection.ParseCommandLineArgs | selection/index_selection_evaluation.py:147-159 | `DISABLE_CSV` switches the CSV output off and nothing switches it back on; the first argument containing `.json` is returned |
| ParameterRanges.IndexSelection.ConfigFile | selection/index_selection_evaluation.py:45-51 | `run` uses the configuration file named in the arguments, else the default |
| ResultParser.ParseIndexStringList | selection/result_parser.py:30-42 | the method with its two loops computes `IndexStringList`, which `ParseIndexListRepr` proves the inverse of `str(indexes)` |
| ResultParser.ParseIndexes | selection/result_parser.py:36-41 | the outer loop parses one index per part, in order |
| ResultParser.ParseIndex | selection/result_parser.py:37-40 | one index is `index_string[2:-1]` split on `,`, each attribute without its prefix |
| ResultParser.DropPrefixes | selection/result_parser.py:39-40 | the inner loop keeps every attribute without its first two characters |
| ResultParser.ColumnReprs | selection/workload.py:25-26 | one text per column |
| ResultParser.IndexReprs | selection/index.py:26-28 | one text per index |
| ResultParser.QualifiedNames | selection/workload.py:25-26 | one `table.column` name per column of the index |
| ResultParser.EmptyList | selection/result_parser.py:32-33 | `[]`, the text of no indexes, parses to no indexes |
| ResultParser.IndexesOfParts | selection/result_parser.py:34-41 | otherwise there is one index per `, `-separated part of the text without brackets, and its attributes are the `,`-separated parts between `I(` and `)` without their `C ` |
| ResultParser.EmptyCell | selection/result_parser.py:32-41 | an empty cell is not the empty list: it reads as one index with one empty attribute |
| ResultParser.ColumnReprCommaFree | selection/workload.py:25-26 | a column's text starts with `C` and has no `,` when its names have none |
| ResultParser.CommaFreeHasNoComma | selection/result_parser.py:39 | a text without commas contains no `,` |
| ResultParser.JoinCommaBeforeC | selection/index.py:27 | joined with `,`, column texts have a `C` after every `,` |
| ResultParser.IndexReprNoCommaSpace | selection/index.py:26-28 | the text of an index with columns starts with `I`, ends with `)` and holds no `, ` |
| ResultParser.NoCommaSpaceFind | selection/result_parser.py:35 | `, ` is first found right after such a text |
| ResultParser.StripBrackets | selection/result_parser.py:34 | stripping the outer brackets of `[m]` gives `m` when `m` neither starts nor ends with a bracket |
| ResultParser.ParseIndexRepr | selection/result_parser.py:37-40 | one index's text reads back as the `table.column` names of its columns (see also selection/index.py:26-28) |
| ResultParser.ColumnReprsNoComma | selection/workload.py:25-26 | no column text of the index contains `,` |
| ResultParser.ColumnReprsQualified | selection/result_parser.py:40 | a column's text without its first two characters is its `table.column` name (see also selection/workload.py:25-26) |
| ResultParser.AttributesFromParts | selection/result_parser.py:37-40 | the attributes of an index text are its parts without their prefix |
| ResultParser.StripIndexList | selection/result_parser.py:32-34 | the text of some indexes is not `[]`, and without brackets it is their texts joined by `, ` |
| ResultParser.SplitIndexReprs | selection/result_parser.py:35 | the texts of readable indexes, joined by `, ` and split again, are those texts |
| ResultParser.ParseIndexListRepr | selection/result_parser.py:30-42 | round trip: `str(indexes)` of indexes whose names hold no `,` parses back into the `table.column` names of every index, in order (see also selection/index.py:26-28) |
| ResultParser.CostCells | selection/result_parser.py:20 | `row[16:-1]`: the cells from 16 up to, not including, the last one |
| ResultParser.ResultsStop | selection/result_parser.py:10-26 | once a row has failed, the whole reading has |
| ResultParser.ReadRowsStop | selection/result_parser.py:10-26 | the same for any row parser |
| ResultParser.ResultsNext | selection/result_parser.py:10-26 | one more row: its error ends the reading, otherwise its result is appended |
| ResultParser.ReadRowsNext | selection/result_parser.py:10-26 | the same for any row parser |
| ResultParser.ParseFile | selection/result_parser.py:6-27 | the method with its loop computes `Results` |
| ResultParser.NextRow | selection/result_parser.py:13-26 | the loop body for row `i` keeps the results consistent with `Results` |
| ResultParser.ResultsPerRow | selection/result_parser.py:10-26 | without an error there is one result per row after the header, in order |
| ResultParser.ReadRowsPerRow | selection/result_parser.py:10-26 | the same for any row parser |
| ResultParser.RowMeaning | selection/result_parser.py:13-26 | a row's query costs are the decoded cells 16 up to the last one, its indexes the parse of the last cell, its memory `budget_MB` when present and column 13 divided by 1,000,000 otherwise |
| ResultParser.ShortRow | selection/result_parser.py:13-18 | rows too short for the cells read raise IndexError |
| WorkloadParsing.StoreIndexableColumns | selection/workload_parser.py:48-54 | the query keeps its number and text, and its column list is extended by `Indexable`, which `IndexableMeaning` characterises |
| WorkloadParsing.AppendMentioned | selection/workload_parser.py:52-54 | the inner loop appends the table's columns whose name the text mentions, in column order |
| WorkloadParsing.ExecuteAsWritten | selection/workload_parser.py:56-76 | as written `execute` always ends in a TypeError: `Workload(queries)` lacks the database name |
| WorkloadParsing.Execute | selection/workload_parser.py:56-76 | the workload of the parsed queries of the sorted files, over the parser's database name |
| WorkloadParsing.ParseQueries | selection/workload_parser.py:68-74 | the loop over the sorted files builds `ParsedQueries` |
| WorkloadParsing.IndexableMeaning | selection/workload_parser.py:48-54 | a column is appended exactly when the text mentions the key of a table that holds it and mentions the column's name |
| WorkloadParsing.IndexableInTableOrder | selection/workload_parser.py:49 | the appended columns follow the table order: those of earlier tables come first |
| WorkloadParsing.OneTable | selection/workload_parser.py:50-54 | one table contributes its mentioned columns, in column order, when the text mentions its key, and nothing otherwise |
| WorkloadParsing.MentionedMeaning | selection/workload_parser.py:52-54 | a column is kept exactly when it is listed and its name occurs in the text |
| WorkloadParsing.LastSeparator | selection/workload_parser.py:71 | the part after the last `/` is unique |
| WorkloadParsing.NoSlash | selection/workload_parser.py:71 | a text without `/` has no `/` character |
| WorkloadParsing.QueryIdIsBaseName | selection/workload_parser.py:71 | the query id is the file's base name: no `/` in it, the file name ends with it, and for `dir/base` it is `base` |
| WorkloadParsing.QueryIdSuffix | selection/workload_parser.py:71 | the id contains no `/` and ends the file name |
| WorkloadParsing.EndsWithLast | selection/workload_parser.py:71 | a string ends with its last piece |
| WorkloadParsing.QueryIdOfPath | selection/workload_parser.py:71 | for a path `dir/base`, the id is `base` |
| WorkloadParsing.SlashInPath | selection/workload_parser.py:71 | a path `dir/base` contains `/` |
| WorkloadParsing.SplitLast | selection/workload_parser.py:71 | the last part of a split on `/` ends the string and follows the last separator |
| WorkloadParsing.SplitLastAt | selection/workload_parser.py:71 | the same for any separator |
| WorkloadParsing.JoinLast | selection/workload_parser.py:71 | a join is the join of all parts but the last, the separator and the last part |
| WorkloadParsing.ExecuteShape | selection/workload_parser.py:56-76 | one query per file in sorted file-name order, each with its base-name id, its lower-cased text and the columns that text mentions |
| CombineInput.LoadIndexes | combine_input.py:29-63 | the loop over `index_sizes` computes `AddIndexes`, which `AddIndexesFirst` and `AddIndexesChecked` characterise |
| CombineInput.PrefixFailure | combine_input.py:56-63 | once a prefix of the index entries fails, the whole loop fails the same way |
| CombineInput.LoadCombinations | combine_input.py:37-71 | the loop over `index_combinations` computes `AddCombinations` |
| CombineInput.CombinationPrefixFailure | combine_input.py:38-71 | once a prefix of the combination entries fails, the whole loop fails the same way |
| CombineInput.LoadCosts | combine_input.py:45-79 | the loop over `query_costs` computes `AddCosts` |
| CombineInput.CostPrefixFailure | combine_input.py:45-79 | once a prefix of the cost entries fails, the whole loop fails the same way |
| CombineInput.ReadFile | combine_input.py:25-79 | reading one file, its indexes, combinations and costs in turn, computes `AddFile` |
| CombineInput.SortedKeysIndexed | combine_input.py:95 | `sorted(index_sizes)` lists exactly the keys with a size |
| CombineInput.WriteOutput | combine_input.py:81-124 | the writing loops build `Output` |
| CombineInput.WriteSizeRows | combine_input.py:94-103 | the loop builds the `index_sizes` rows |
| CombineInput.WriteCombinationRows | combine_input.py:105-109 | the loop builds the `index_combinations` rows |
| CombineInput.WriteCostRows | combine_input.py:112-124 | the nested loop builds the `query_costs` rows |
| CombineInput.CombineInputs | combine_input.py:21-124 | the script fails as the merge fails; otherwise the merged dictionaries are well formed and the output is their fresh numbering over the first file's queries |
| CombineInput.EmptyWellFormed | combine_input.py:21-22 | the empty dictionaries are well formed |
| CombineInput.AddIndexesWellFormed | combine_input.py:30-63 | reading index sizes keeps the dictionaries well formed and maps every id to an index with a size |
| CombineInput.AddCombinationsWellFormed | combine_input.py:38-71 | reading combinations keeps the dictionaries well formed and maps every id to a registered combination |
| CombineInput.CombinationStepWellFormed | combine_input.py:41-71 | one combination keeps the dictionaries well formed |
| CombineInput.AddCostsWellFormed | combine_input.py:45-79 | reading costs keeps the dictionaries well formed |
| CombineInput.AddFileWellFormed | combine_input.py:25-79 | reading a whole file keeps the dictionaries well formed |
| CombineInput.ListedSnoc | combine_input.py:56-63 | column names listed by some entry: those of the earlier entries and the last one |
| CombineInput.AddIndexesCheckedContents | combine_input.py:56-63 | the second file, once accepted: known sizes stay, every entry's size is stored under its column names, nothing else is added, every id is mapped |
| CombineInput.AddIndexesChecked | combine_input.py:59-62 | the second file's sizes are accepted exactly when they agree with the known sizes and with each other; otherwise an AssertionError |
| CombineInput.AddIndexesFirst | combine_input.py:30-33 | the first file's sizes are always accepted; each listed column-name tuple gets the size of the last entry listing it |
| CombineInput.RegisteredSnoc | combine_input.py:38-43 | combinations registered by some entry: those of the earlier entries and the last one |
| CombineInput.AddCombinationsFails | combine_input.py:41-68 | the combinations are read without a KeyError exactly when every index id is known |
| CombineInput.AddCombinationsOrder | combine_input.py:41-71 | a combination is identified by its set of indexes: the known ones stay in front, followed by the newly resolved sets, each once |
| CombineInput.AddCombinationsMembers | combine_input.py:41-71 | the known combinations after reading are the earlier ones and the registered ones |
| CombineInput.AddCombinationsPrefix | combine_input.py:41-71 | the earlier combinations stay in front, each once, and every id read is mapped |
| CombineInput.CombinationStepOrder | combine_input.py:41-71 | one combination keeps the earlier order and adds a set only when it is new |
| CombineInput.AddCombinationsRows | combine_input.py:42-70 | every registered combination has a cost row: a new one starts empty, the first file also empties a repeated one, the second keeps known costs |
| CombineInput.CostListedSnoc | combine_input.py:73-79 | pairs given a cost by some entry: those of the earlier entries and the last one |
| CombineInput.AddCostsCheckedContents | combine_input.py:73-79 | the second file, once accepted: no combination is added, known costs stay, every entry's cost is stored for its pair and no other pair gets one |
| CombineInput.AddCostsChecked | combine_input.py:73-79 | the second file's costs are read exactly when every combination id is known and the costs agree; with known ids the only failure is an AssertionError |
| CombineInput.AddCostsWellFormedKeys | combine_input.py:45-79 | reading costs registers no combination |
| CombineInput.AddCostsFirst | combine_input.py:45-48 | the first file's costs are read exactly when every combination id is known; a pair's cost is that of the last entry giving it |
| CombineInput.CombinedRequiresSameQueries | combine_input.py:53 | the second file must list the same queries, else an AssertionError; a merge that succeeds is well formed |
| CombineInput.OutputIndexes | combine_input.py:85-103 | indexes are numbered 1, 2, ... over their column names in ascending order, each merged index once with its size; `number_of_indexes` counts them |
| CombineInput.SizeRowsMeaning | combine_input.py:95-103 | the size rows over sorted, repetition-free keys number them from 1 and carry their sizes |
| CombineInput.IdsOfMeaning | combine_input.py:106 | a combination's new ids are ascending and are those of its indexes |
| CombineInput.OutputCombinations | combine_input.py:86-109 | combinations are numbered 0, 1, ... in merged order; their ids map back to exactly their set of indexes; `number_of_index_combinations` is their number less one |
| CombineInput.QueryCostRowsMeaning | combine_input.py:113-124 | one query's cost rows are the combinations, by position, that have a cost for it |
| CombineInput.CostRowsMeaning | combine_input.py:112-124 | a cost row exists exactly for a query and a combination position with a cost for that query |
| CombineInput.OutputCosts | combine_input.py:112-124 | `query_costs` holds a row for each query and each merged combination with a cost for it, carrying that cost |
| AmplBenchmark.PathsNameTheInput | statsitics_tools/parse_ampl_benchmark.py:70-75 | both paths name the same CoPhy input: `solves/<input>.txt-<budget>-out.solve` and `<output folder>/<input>.json` |
| AmplBenchmark.SolvePathBudget | statsitics_tools/parse_ampl_benchmark.py:70-71 | the budget can be read back from the solve path |
| AmplBenchmark.SolvePathsDiffer | statsitics_tools/parse_ampl_benchmark.py:70-71 | different budgets give different solve files |
| AmplBenchmark.KeyedKeys | statsitics_tools/parse_ampl_benchmark.py:142-154 | a dictionary filled entry by entry has exactly the entries' keys |
| AmplBenchmark.KeyedLast | statsitics_tools/parse_ampl_benchmark.py:142-154 | the entry no later entry shares its key with is the one stored under it |
| AmplBenchmark.TransformIndexList | statsitics_tools/parse_ampl_benchmark.py:140-146 | the loop builds the dictionary `IndexDict` |
| AmplBenchmark.TransformIndexListMeaning | statsitics_tools/parse_ampl_benchmark.py:140-146 | every entry is keyed by the text of its id, and the last entry with an id is the one kept |
| AmplBenchmark.TransformCombinationList | statsitics_tools/parse_ampl_benchmark.py:149-156 | the loop builds the dictionary `CombinationDict` |
| AmplBenchmark.TransformCombinationListMeaning | statsitics_tools/parse_ampl_benchmark.py:149-156 | every combination is keyed by the text of its id and keeps its blank-separated index ids; the last one with an id is kept |
| AmplBenchmark.TransformQueryCosts | statsitics_tools/parse_ampl_benchmark.py:159-172 | the loop builds the nested dictionary `CostsDict` |
| AmplBenchmark.CostsDictFlat | statsitics_tools/parse_ampl_benchmark.py:164-170 | the nested dictionary is the dictionary keyed by (query, combination) pairs, split by query; no query has an empty inner dictionary |
| AmplBenchmark.TransformQueryCostsMeaning | statsitics_tools/parse_ampl_benchmark.py:159-172 | under each query and combination sits the cost of the last entry for that pair, wrapped as `{"Cost": c}`, and nothing else |
| AmplBenchmark.IdNamesStop | statsitics_tools/parse_ampl_benchmark.py:180-182 | once a prefix of the ids fails, all of them fail the same way |
| AmplBenchmark.ConvertIndexIdsToNames | statsitics_tools/parse_ampl_benchmark.py:175-183 | the nested loop computes `IdNames` |
| AmplBenchmark.IdNamesFails | statsitics_tools/parse_ampl_benchmark.py:180-181 | the conversion fails exactly when an id is unknown, and then with a KeyError |
| AmplBenchmark.IdNamesConcat | statsitics_tools/parse_ampl_benchmark.py:179-183 | the names of concatenated ids are those of the first part followed by those of the second |
| AmplBenchmark.OneIdNames | statsitics_tools/parse_ampl_benchmark.py:181-182 | a single id gives its index's column names |
| AmplBenchmark.RowsOfLines | statsitics_tools/parse_ampl_benchmark.py:97-133 | each line's row is how the scan sees it |
| AmplBenchmark.Seek | statsitics_tools/parse_ampl_benchmark.py:97-133 | a seek loop stops at the first line holding its marker, or finds none when no line does |
| AmplBenchmark.HoldsMarker | statsitics_tools/parse_ampl_benchmark.py:97-132 | the test of a seek loop on one line |
| AmplBenchmark.SeekLine | statsitics_tools/parse_ampl_benchmark.py:97-98 | the loop computes `Seek` |
| AmplBenchmark.SeekAt | statsitics_tools/parse_ampl_benchmark.py:97-98 | a line either holds the marker or the search goes on at the next line |
| AmplBenchmark.ReadSectionLine | statsitics_tools/parse_ampl_benchmark.py:101-109 | a section line is stripped, checked for `;` and split into tokens |
| AmplBenchmark.SelectedFrom | statsitics_tools/parse_ampl_benchmark.py:103-109 | the `x` section ends at a line holding `;` |
| AmplBenchmark.ScanSelected | statsitics_tools/parse_ampl_benchmark.py:101-109 | the loop over the `x` section computes `SelectedFrom` |
| AmplBenchmark.SelectedFromMeaning | statsitics_tools/parse_ampl_benchmark.py:103-109 | the `x` section ends at the first `;` line; every line before it is a selection line, and the selected names are those lines' contributions in order |
| AmplBenchmark.SelectedFromSection | statsitics_tools/parse_ampl_benchmark.py:103-109 | conversely, selection lines closed by a `;` line give their contributions and that line |
| AmplBenchmark.QueriesFrom | statsitics_tools/parse_ampl_benchmark.py:119-130 | the `z` section ends at a line holding `;` |
| AmplBenchmark.ScanQueries | statsitics_tools/parse_ampl_benchmark.py:111-130 | the loop over the `z` section computes `QueriesFrom` from empty dictionaries |
| AmplBenchmark.QueriesFromLines | statsitics_tools/parse_ampl_benchmark.py:119-130 | the `z` section ends at the first `;` line and every line before it is a query line |
| AmplBenchmark.QueriesFromKeys | statsitics_tools/parse_ampl_benchmark.py:121-129 | a query has an entry exactly when it had one before or a chosen line names it; an unnamed query keeps what it had |
| AmplBenchmark.QueriesFromLast | statsitics_tools/parse_ampl_benchmark.py:121-129 | a query's entry is written by the last chosen line naming it: the names of its combination and its cost |
| AmplBenchmark.ZAt | statsitics_tools/parse_ampl_benchmark.py:114-115 | the `z` marker is found at or after the line closing `x` |
| AmplBenchmark.ParseSolve | statsitics_tools/parse_ampl_benchmark.py:78-137 | the method computes `ParsedSolve` |
| AmplBenchmark.ScanSolve | statsitics_tools/parse_ampl_benchmark.py:85-137 | the scan of the solve file computes `SolveWith` |
| AmplBenchmark.ScanFromX | statsitics_tools/parse_ampl_benchmark.py:95-109 | the seek for `x` and the `x` section compute `FromX` |
| AmplBenchmark.StrippedAtZ | statsitics_tools/parse_ampl_benchmark.py:114 | the test of the stripped line closing `x` for the `z` marker |
| AmplBenchmark.ScanFromZ | statsitics_tools/parse_ampl_benchmark.py:111-130 | the seek for `z` and the `z` section compute `FromZ` |
| AmplBenchmark.SeekZ | statsitics_tools/parse_ampl_benchmark.py:114-115 | the seek for `z`, which tests the line closing `x` first, computes `ZAt` |
| AmplBenchmark.ScanFromTime | statsitics_tools/parse_ampl_benchmark.py:132-135 | the seek for `Time` and the solver's time compute `FromTime` |
| AmplBenchmark.SolveNeedsObjective | statsitics_tools/parse_ampl_benchmark.py:87-93 | a first line without `objective` fails the parse; otherwise the overall costs are the number after `objective ` on that line |
| AmplBenchmark.SolveSelectedIndexes | statsitics_tools/parse_ampl_benchmark.py:95-109 | the selected indexes are the contributions of the lines after the first `x [*] :=` line and its assignment line, up to the first `;` line |
| AmplBenchmark.FromXSelected | statsitics_tools/parse_ampl_benchmark.py:95-109 | a parse that gets past the `x` section reports the names that section selected |
| AmplBenchmark.FromZKeepsSelected | statsitics_tools/parse_ampl_benchmark.py:111-135 | the rest of the parse keeps the selected names |
| NormalBenchmark.ConvertBudgetMeaning | statsitics_tools/parse_normal_benchmark.py:64-69 | a budget in MB is given in bytes and reads back as itself in MB; `budget_MB` wins over `budget`; without `budget_MB`, `budget` is taken as it is; without either, a KeyError (see also statsitics_tools/read_csv.py:47-51) |
| NormalBenchmark.PyIntOfText | statsitics_tools/parse_normal_benchmark.py:67-69 | `int()` of the text of an integer gives the integer |
| NormalBenchmark.ConvertIndexOfList | statsitics_tools/parse_normal_benchmark.py:72-76 | on `str(indexes)` of a result row, `convert_index` gives back each index's own text when no name holds a comma; an empty list gives one empty name (see also statsitics_tools/read_csv.py:54-57) |
| NormalBenchmark.QueryNamesOverCosts | statsitics_tools/parse_normal_benchmark.py:96-98 | the header's query names stand over the cost cells of a row of the same width, position by position (see also statsitics_tools/read_csv.py:74-75) |
| NormalBenchmark.ConvertQueryCostsListToDict | statsitics_tools/parse_normal_benchmark.py:88-93 | the loop computes `QueryCostsDict`: an IndexError when there are fewer costs than names (see also statsitics_tools/read_csv.py:67-71) |
| NormalBenchmark.PairedMeaning | statsitics_tools/parse_normal_benchmark.py:88-93 | every name is a key and every key a name; a name not repeated later maps to the cost at its position; surplus costs are ignored |
| NormalBenchmark.QueryCostsDictMeaning | statsitics_tools/parse_normal_benchmark.py:88-93 | for distinct names and enough costs, the keys are the names and each name's cost is the one at its position (see also statsitics_tools/read_csv.py:67-71) |
| NormalBenchmark.NormalizeDropsId | statsitics_tools/parse_normal_benchmark.py:118-123 | a hypothetical index name `<id>>name` normalises to the name proper, whatever it contains (see also statsitics_tools/read_csv.py:104-109) |
| NormalBenchmark.NormalizeMeaning | statsitics_tools/parse_normal_benchmark.py:118-123 | a name without `>` is left as it is; one with `>` loses everything up to and including its first `>` (see also statsitics_tools/read_csv.py:104-109) |
| NormalBenchmark.IndexNames.constructor | statsitics_tools/parse_normal_benchmark.py:164 | the set starts empty |
| NormalBenchmark.RecPlanSearch | statsitics_tools/parse_normal_benchmark.py:126-142 | the walk changes the set as `Visit` says, and reports the KeyError of an index node without a name (see also statsitics_tools/read_csv.py:112-128) |
| NormalBenchmark.SearchChildren | statsitics_tools/parse_normal_benchmark.py:138-140 | the loop over the children changes the set as `VisitAll` says |
| NormalBenchmark.NamesOfConcat | statsitics_tools/parse_normal_benchmark.py:135-140 | the names of two node lists together are the union of their names |
| NormalBenchmark.VisitMeaning | statsitics_tools/parse_normal_benchmark.py:126-142 | the walk adds the normalised names of exactly the index nodes anywhere in the tree, and ends normally exactly when every index node has an `Index Name` |
| NormalBenchmark.VisitAllMeaning | statsitics_tools/parse_normal_benchmark.py:138-140 | the same for the children of a node, in order |
| NormalBenchmark.VisitOnlyAdds | statsitics_tools/parse_normal_benchmark.py:126-142 | the walk only ever adds: nothing the set held is lost, even on an error |
| NormalBenchmark.VisitAllOnlyAdds | statsitics_tools/parse_normal_benchmark.py:138-140 | the same for the children |
| Analysis.GroupByBudget | statsitics_tools/analysis.py:7-42 | the loop shared by the three grouping tables computes `GroupedBy` |
| Analysis.AppendUnderMeaning | statsitics_tools/analysis.py:12-40 | appending under keys adds exactly those keys, and each list grows by the name once per occurrence of its key |
| Analysis.AppendUnderFrom | statsitics_tools/analysis.py:37-40 | a key the appended keys do not hold was there before |
| Analysis.OccurrencesAbsent | statsitics_tools/analysis.py:37-40 | a key that does not occur adds nothing |
| Analysis.GroupedByKeys | statsitics_tools/analysis.py:9-14 | the table holds a budget exactly when some run has it, and a key under it exactly when some run of that budget has that key |
| Analysis.GroupedBudgets | statsitics_tools/analysis.py:9-11 | the table holds a budget exactly when some run has it |
| Analysis.GroupedKeysFrom | statsitics_tools/analysis.py:12-13 | a key under a budget comes from some run of that budget |
| Analysis.GroupedKeysOf | statsitics_tools/analysis.py:12-14 | every key of every run is under its budget |
| Analysis.GroupedByLists | statsitics_tools/analysis.py:14-40 | under each budget and key, the run names in input order, once per occurrence of the key |
| Analysis.MembersAbsent | statsitics_tools/analysis.py:37-40 | when no run of the budget has the key, no name is listed for it |
| Analysis.MembersMeaning | statsitics_tools/analysis.py:37-40 | a name is listed under a budget and a key exactly when a run of that budget with that name has the key |
| Analysis.OccurrencesMeaning | statsitics_tools/analysis.py:37-40 | the name is listed when the key occurs, and only that name |
| Analysis.OverallCostsBreakdown | statsitics_tools/analysis.py:5-16 | the loop groups the runs by budget and overall cost (`GroupedBy` with `CostKeys`) |
| Analysis.OverallCostsBreakdownMeaning | statsitics_tools/analysis.py:5-16 | under a budget, each overall cost some run of it reached, listing exactly the names of the runs of that budget with that cost, in input order |
| Analysis.EqualIndexConfigsByBudget | statsitics_tools/analysis.py:19-29 | the loop groups the runs by budget and sorted configuration |
| Analysis.SameIndexesSameConfig | statsitics_tools/analysis.py:24 | the same indexes in any order, with the same repetitions, render to the same configuration |
| Analysis.EqualIndexConfigsTogether | statsitics_tools/analysis.py:19-29 | runs of one budget that selected the same indexes, in whatever order, are listed together |
| Analysis.EqualIndexConfigsMeaning | statsitics_tools/analysis.py:19-29 | a configuration lists exactly the runs of its budget that render to it |
| Analysis.SingleKeyMembers | statsitics_tools/analysis.py:9-27 | with one key per run, a budget and key list exactly the runs of that budget with that key |
| Analysis.ListedUnderConfig | statsitics_tools/analysis.py:21-27 | every run is listed under its budget and its own configuration |
| Analysis.IndexesByBudget | statsitics_tools/analysis.py:32-42 | the loop groups the runs by budget and selected index |
| Analysis.IndexesByBudgetMeaning | statsitics_tools/analysis.py:32-42 | every run's budget is a key, even for a run that selected nothing; under it each index some run of that budget selected, listing exactly those runs in input order |
| Analysis.CostsByQuery | statsitics_tools/analysis.py:45-56 | the loop computes `CostsTable`, whatever order a run's queries are visited in |
| Analysis.EnterCosts | statsitics_tools/analysis.py:50-55 | the inner loop enters one run's costs |
| Analysis.AddCostsMeaning | statsitics_tools/analysis.py:50-55 | one run enters its own costs under its name and keeps every other entry |
| Analysis.CostsTableBudgets | statsitics_tools/analysis.py:47-49 | the table holds exactly the runs' budgets |
| Analysis.CostsTableEntries | statsitics_tools/analysis.py:50-55 | every query of every run has that run's name under its budget |
| Analysis.CostsTableLast | statsitics_tools/analysis.py:53-55 | a cost in the table is the one of the last run with that name, budget and query: a later run overwrites |
| Analysis.EntryBefore | statsitics_tools/analysis.py:53-55 | an entry a run did not write was in the table before, unchanged |
| Analysis.LastEntryStep | statsitics_tools/analysis.py:47-55 | the last writer of an entry stays the last when a further run does not write it |
| Analysis.LastBaselineMeaning | statsitics_tools/analysis.py:77-79 | the baseline is the last run with its name and the budget; there is none exactly when no run matches |
| Analysis.ComparedRunsMeaning | statsitics_tools/analysis.py:80-81 | the compared runs are exactly the runs of a compared algorithm and the budget |
| Analysis.ComparingStops | statsitics_tools/analysis.py:99-137 | once a compared run fails, the whole comparison does |
| Analysis.CompareAlgorithmCosts | statsitics_tools/analysis.py:66-138 | the method computes `CompareAlgorithmCostsOf` |
| Analysis.BaseQueries | statsitics_tools/analysis.py:94-96 | the loop enters the baseline's cost under each of its queries |
| Analysis.CompareQueries | statsitics_tools/analysis.py:125-137 | the loop over a compared run's queries enters its entries, or raises KeyError where a lookup fails |
| Analysis.CompareNothingMeaning | statsitics_tools/analysis.py:83-88 | the result is nothing exactly when no run is the baseline or no run is compared |
| Analysis.ComparingFails | statsitics_tools/analysis.py:125-133 | the comparison fails, with a KeyError, exactly when a compared run has a query it lists no indexes for or the baseline has no cost for; otherwise the queries are exactly the baseline's |
| Analysis.AllFitStep | statsitics_tools/analysis.py:99-137 | all compared runs fit exactly when those before the last do and the last does |
| Analysis.ComparingTotals | statsitics_tools/analysis.py:91-102 | the totals list the baseline first, then each compared run in order with its difference to the baseline |
| Analysis.ComparingConfigKeys | statsitics_tools/analysis.py:92-124 | the index splits are keyed by `Base_indexes` and the compared runs' names |
| Analysis.ComparingSplits | statsitics_tools/analysis.py:98-124 | a compared run's split is the intersection and the two differences of the index sets |
| Analysis.ComparingBaseIndexes | statsitics_tools/analysis.py:92 | the `Base_indexes` entry keeps the baseline's indexes unless a compared run has that name |
| Analysis.ComparingBaseOnlyEmpty | statsitics_tools/analysis.py:126-137 | every compared query entry has an empty `base_only`, since line 136 takes a set minus itself, and carries its difference to the baseline's cost |
| Analysis.ComparingBaseEntries | statsitics_tools/analysis.py:96-130 | a query's baseline entry stays unless a compared run named `base` has that query |
| Analysis.ComparingRunEntries | statsitics_tools/analysis.py:125-137 | a compared run's entry under a query (its last, when names repeat) is the entry of lines 126-137, with the query names of line 126 as the first set |
| Analysis.LastEntryAmongFront | statsitics_tools/analysis.py:99-137 | a last entry that is not the final run's is a last entry among the runs before it |
| Analysis.QueriesAgainstAt | statsitics_tools/analysis.py:125-137 | one compared run enters its own entry under each of its queries and leaves every other entry as it was |
| PlotHelpers.IndexOf | statsitics_tools/plot_helper.py:47-52 | the position of the first occurrence of an algorithm among those seen |
| PlotHelpers.PlotHelper.constructor | statsitics_tools/plot_helper.py:12-44 | a helper starts with empty memos and both counters at 0 |
| PlotHelpers.PlotHelper.GetColor | statsitics_tools/plot_helper.py:46-52 | the colour is the one the algorithm got when first seen, or the next palette entry for a new one; the memo stays valid and the symbols are untouched |
| PlotHelpers.PlotHelper.GetSymbol | statsitics_tools/plot_helper.py:54-60 | the same for symbols, leaving the colours untouched |
| PlotHelpers.MemoExtends | statsitics_tools/plot_helper.py:47-51 | storing a new algorithm's entry and counting it keeps the memo |
| PlotHelpers.IndexOfAppend | statsitics_tools/plot_helper.py:47 | seeing a new algorithm leaves the positions of the earlier ones |
| PlotHelpers.IndexOfLast | statsitics_tools/plot_helper.py:47-51 | a new algorithm takes the next position |
| PlotHelpers.AssignedStable | statsitics_tools/plot_helper.py:46-60 | asking again returns what was handed out before, whatever new algorithms came in between |
| PlotHelpers.AssignedCycles | statsitics_tools/plot_helper.py:49-57 | the k-th distinct algorithm gets palette entry k modulo the palette length; the counter grows exactly for a new algorithm; every entry is a palette member |
| PlotHelpers.PalettesHandOutMembers | statsitics_tools/plot_helper.py:15-43 | the palettes have 10 colours and 14 symbols, hand out members only, and start with `tab:blue` and `o` |
| StatisticsMain.ConstructBudgets | statsitics_tools/main.py:23-29 | the loop computes `Budgets` |
| StatisticsMain.BudgetsMeaning | statsitics_tools/main.py:23-29 | the budgets start at `min` and grow by `step`, all stay at most `max` and the next would exceed it; `min > max` gives none |
| StatisticsMain.BudgetsNeverEnd | statsitics_tools/main.py:26-28 | as written, with `min <= max` and a step that is not positive, no number of iterations ends the loop |
| StatisticsMain.BudgetsEnd | statsitics_tools/main.py:26-28 | otherwise one iteration per budget ends the loop, with `Budgets` as its list |
| StatisticsMain.CheckedBudgets | statsitics_tools/main.py:23-29 | the corrected loop rejects a step that is not positive when `min <= max`, and otherwise ends with the budgets the loop lists |
| SolveAutomation.ModelGen | cophy_tools/solve_automation.py:7-39 | the text written to the model file is the one returned, the fixed model with the budget in `param storage_budget:= <budget>;` |
| SolveAutomation.FindFirstMark | cophy_tools/solve_automation.py:18 | a mark that does not occur before it is found right there |
| SolveAutomation.NoSemicolonInNumber | cophy_tools/solve_automation.py:18 | the decimal text of a number holds no `;` |
| SolveAutomation.NumberReadBack | cophy_tools/solve_automation.py:18 | a number written between a key and `;` is read back from the text after the key up to the first `;` |
| SolveAutomation.ModelTextBudget | cophy_tools/solve_automation.py:9-36 | the budget can be read back from the model text: after the fixed prefix and `param storage_budget:= ` comes the budget in decimal up to the first `;`, then the fixed suffix |
| SolveAutomation.GenerateRunFile | cophy_tools/solve_automation.py:41-51 | the text written to the run file is the one returned |
| SolveAutomation.RunTextSolver | cophy_tools/solve_automation.py:43-48 | the run file opens with `option solver '<path>';`, and a path without a quote is read back from it |
| SolveAutomation.MbToB | cophy_tools/solve_automation.py:69-74 | every budget, in order, is converted from MB to bytes |

## Left out

- DropHeuristic.CalculateBestIndexes: drop_heuristic_algorithm.py:24 calls `workload.potential_indexes()`, which workload.py does not define, so every run fails with AttributeError as written. The model uses the base class's `potential_indexes(workload)` (`SelectionAlgorithms.PotentialIndexes`).
- Microsoft.CalculateBestIndexes: the same AttributeError at microsoft_algorithm.py:36 is replaced by `SelectionAlgorithms.PotentialIndexes`.
- DtaAnytime.CalculateBestIndexes: dta_anytime_algorithm.py:3 imports `index_merge`, which index.py does not define. The module therefore fails to import as written. The model describes the class as if the import succeeded.
- SelectionAlgorithms.SelectionAlgorithm.constructor: `drop_indexes()` (selection_algorithm.py:19) needs a live database, so it is not modelled. The connector's hypothetical set starts as given.
- SelectionAlgorithms.FillDefaults: fills the defaults into a copy and returns it. The source fills them into the caller's own dictionary (selection_algorithm.py:10-16), so the model does not show the caller's dictionary changing.
- CombineInput.IdsOf: set and frozenset iteration order becomes sequence order, with ascending ids here. The same holds for `selected_index_ids` in IlpActualResults.CalculateBestIndexes (ilp_actual_results.py:90), for the tie order of the IBM sort (ibm_algorithm.py:192), for the candidate and column sets of `CophyEnumeration` (kept in insertion order), and for the candidate sets of `RelaxationAlgorithms.Scan` (relaxation_algorithm.py:46) and `DtaAnytime` (dta_anytime_algorithm.py:52), where the order decides ties. Python's hash order is not modelled.
- Indexes.SortIndexes: `Column` and `Index` objects compare by value. The source compares by identity where no `__eq__` is defined, and this affects `list(set(...))` deduplication and `in` tests on distinct but equal objects.
- CostEvaluations.CostEvaluation.CalculateCost: Python floats are modelled as `real`, so rounding error is not modelled. Every `round(…, 2)` is the identity.
- Common.Lower: `lower`, `strip` and `split` are modelled on ASCII only. Unicode case mappings that change a string's length are not modelled.
- IlpActualResults.SettingsOf: a float `budget_MB` is reported as TypeError, although Python would accept it.
- IlpActualResults.FloatToInt: accepts decimal numerals with an optional exponent and reads them exactly. Python's `int(float(s))` first rounds to the nearest double, so the two differ for values above 2^53. `inf`, `nan`, underscores and hexadecimal floats are not modelled.
- EpicAlgorithm.Epic: the unbounded `while True` step loop carries a step bound (fuel) that ends in the StepLimit error. `EpicAlgorithm.EpicMoreFuel` shows that more fuel never changes any other outcome, but no lemma bounds the number of steps.
- IbmBenefits.CalculateBestIndexes: `_try_variations` depends on the clock and on random sampling. It is the parameter `vary`, of which `IbmBenefits.BestIndexesFit` requires only that its choices are drawn from the candidates and fit the disk budget.
- TableGeneration.Prepare: dbgen, file listing, `create_database` and `_load_table_data` (database I/O) are not modelled. `TableLoader` (table_generator.py:110-132) is not modelled either. The column identifier counter is not modelled: a column is its name and table.
- QueryGeneration.Run: `_run_make` and `_run_command` (subprocesses) are not modelled; their output is a parameter. `_generate_tpcds` is commented out in the source, so a `tpcds` run fails with AttributeError; that path is not modelled.
- WorkloadParsing.Execute: `get_tables` and `is_custom_workload` read the database and the filesystem. The schema is a parameter instead. `get_tables` also fails as written (workload_parser.py:42): `Column(column_name)` passes one argument to the three-argument constructor, and `Table.add_column` is not defined.
- ParameterRanges: `_setup_config`, `_run_algorithms`, `_run_algorithm`, `create_algorithm_object`, `setup_db_connector` and the log levels drive the database and the benchmark, so they are not modelled.
- ResultParser: the `__main__` block (reading files and printing) is not modelled.
- AmplBenchmark: `extract_cophy_entries`, `convert_cophy_row` and `parse_optimizer_run` read files and call the solver, so they are not modelled.
- NormalBenchmark: `convert_normal_row_to_dataclass`, `extract_entries`, `retrieve_query_dicts`, `calculate_overall_costs`, `save_all_to_json`, `index_combination_extraction` and `no_index_costs` read and write CSV and JSON files, so they are not modelled. read_csv.py is covered by the NormalBenchmark row readers.
- Analysis: `compare_indexes` is unfinished in the source, and `compare_absolute_differences` only prints, so neither is modelled. In `compare_algorithm_costs` the base-only set stays empty and the base query set is the dictionary's keys (analysis.py:126, 136). The model keeps both as written (`Analysis.ComparingBaseOnlyEmpty`, `Analysis.QueryEntryOf`).
- SolveAutomation: `solve` runs the solver as a subprocess and reads the clock, so it is not modelled.
- StatisticsMain.ConstructBudgets: requires a positive step whenever `min <= max`, because on those inputs the source loops forever (`StatisticsMain.BudgetsNeverEnd`); see the Findings section.
- CophyInputExpanded.CalculateBestIndexes: the intended run does not model the extra algorithms run at cophy_input_expanded.py:75. Their indexes are never used, because `useful_indexes` starts empty at :99. The calls that write the JSON and data files are commented out in the source. Existence checks (`os.path.isfile`) are the parameter `isFile`.
- CophyExpanded.CalculateBestIndexes: the extra algorithms `cophy_expanded.py` imports are not part of this model. Running them is the parameter `run`.
- CophyInputGeneration.CalculateBestIndexes: the AMPL text is returned rather than written to a file or printed. `logging` output is not modelled anywhere.
- Database.Connector: the database is an oracle. Plans, costs and index sizes are parameters or functions given to the model, and the SQL sent is a statement log.

## Findings

| source | as written | input that shows it | evidently intended | confidence | as-written member | corrected member |
|---|---|---|---|---|---|---|
| selection/selection_algorithm.py:25-41 | `calculate_best_indexes` reads `cost_evaluation.cache_hits` and `cost_requests` and calls `complete_cost_estimation()`. The cost evaluation defines none of them; it has only `_complete_cost_estimation`. | a first run whose body returns indexes: AttributeError | the body's indexes are returned after every simulation is cleaned up | not executed | SelectionAlgorithms.SelectionAlgorithm.CalculateBestIndexesAsWritten | SelectionAlgorithms.SelectionAlgorithm.CalculateBestIndexes |
| selection/algorithms/ilp_actual_results.py:56 | `Column("s_acctbal")` passes one argument to the three-argument `Column` constructor | any run with `benchmark_name` 'tpch': TypeError | the column `s_acctbal` of `supplier` is created and used | not executed | IlpActualResults.CalculateBestIndexesAsWritten | IlpActualResults.BenchmarkColumnsFixed |
| selection/workload_parser.py:76 | `Workload(queries)` omits the required `database_name` | any workload parse: TypeError | the workload of the parsed queries and the database name | not executed | WorkloadParsing.ExecuteAsWritten | WorkloadParsing.Execute |
| selection/query_generator.py:36-37 | `Query(query_id, text, self.db_connector)` passes three arguments to the two-argument `Query` constructor | any generated TPC-H query: TypeError | one query per non-excluded query id, with its text | not executed | QueryGeneration.TpchAsWrittenFails | QueryGeneration.TpchQueriesMeaning |
| selection/algorithms/cophy_expanded.py:20, selection/algorithms/cophy_expanded.py:32 | the default `extra_algorithms` is the string 'none', which `convert_dict_to_filename_component` treats as a dictionary (`.keys()`) | a run without an `extra_algorithms` parameter: AttributeError | a dictionary default with no extra algorithms | not executed | CophyExpanded.DefaultsAsWrittenFail | CophyExpanded.DefaultsRun |
| selection/algorithms/cophy_expanded.py:42, selection/algorithms/cophy_expanded.py:66, selection/algorithms/cophy_expanded.py:81 | `Workload([query])` omits `database_name`; `cost_requests` and `cache_hits` do not exist | a run with one query and no known extra algorithm: TypeError; a run with none, or naming a known extra algorithm: AttributeError | the per-query costs over `Workload([query], workload.database_name)`, as in cophy_algorithm.py | not executed | CophyExpanded.ExpandedAsWrittenFails | CophyExpanded.CalculateBestIndexes |
| selection/algorithms/cophy_input_expanded.py:57 | the JSON branch tests `datafile_path`, never bound in that method, instead of `json_file_path` | a run with `json_path` set: UnboundLocalError | the run stops when the JSON file exists and overwriting is off | not executed | CophyInputExpanded.OutputChecksAsWrittenMisses | CophyInputExpanded.OutputChecksMeaning |
| selection/algorithms/cophy_input_expanded.py:81, selection/algorithms/cophy_input_expanded.py:112, selection/algorithms/cophy_input_expanded.py:125-126 | `Workload([query])` omits `database_name`; `cost_requests` and `cache_hits` do not exist | a run with one query and no known extra algorithm: TypeError; a run with none, or naming a known extra algorithm: AttributeError | the cost dictionary over every query and combination | not executed | CophyInputExpanded.ExpandedAsWrittenFails | CophyInputExpanded.CalculateBestIndexes |
| selection/algorithms/cophy_input_generation.py:26, selection/algorithms/cophy_input_generation.py:50, selection/algorithms/cophy_input_generation.py:60 | `Workload([query])` omits `database_name`; `cost_requests` and `cache_hits` do not exist | a run with one query: TypeError; a run with none: AttributeError | the AMPL input over every query and combination | not executed | CophyInputGeneration.AmplInputAsWrittenFails | CophyInputGeneration.CalculateBestIndexes |
| selection/algorithms/microsoft_algorithm.py:170 | `index.columns + (column,)` adds a tuple to the list that `Index([c])` keeps | a candidate index whose table has another indexable column: TypeError | the index extended by one column of its table | not executed | Microsoft.CreateMulticolumnAsWrittenFails | Microsoft.CreateMulticolumnIndexes |
| selection/algorithms/microsoft/multi_column_index_generation.py:20 | `index.columns + (candidate_column,)` adds a tuple to a list | one single-column index and another column of its table: TypeError | every index extended by each further column of its table | not executed | MultiColumnIndexGenerations.CreatedAsWrittenFails | MultiColumnIndexGenerations.MultiColumnIndexGeneration.Create |
| statsitics_tools/main.py:23-29 | `construct_budgets` loops while `value <= max`, adding `step` | `min = 0, max = 1, step = 0`: the loop never ends | reject a step that is not positive | not executed | StatisticsMain.BudgetsNeverEnd | StatisticsMain.CheckedBudgets |
