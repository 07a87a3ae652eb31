/**
 * selection/algorithms/microsoft_algorithm.py: the AutoAdmin strategy.
 * For every index width up to `max_index_columns`: choose candidates
 * query by query (a naive enumeration of small combinations followed by a
 * greedy extension, over a one-query workload), enumerate again over the
 * whole workload, then widen the chosen indexes by one column for the
 * next round.
 *
 * Costs come from a per-query oracle, summed over the workload as
 * `calculate_cost` does; Python sets are repetition-free sequences whose
 * order is the iteration order.
 */
module Microsoft {
  import opened Common
  import opened Schema
  import opened Indexes
  import opened Workloads
  import opened CostEvaluations
  import opened Search
  import opened SelectionAlgorithms

  const MaxIndexesDefault := 15
  const MaxIndexesNaiveDefault := 3
  const MaxIndexColumnsDefault := 2

  /** `DEFAULT_PARAMETERS`. */
  function DefaultParameters(): (p: Params)
    ensures p.Keys == {"max_indexes", "max_indexes_naive", "max_index_columns", "cost_estimation"}
    ensures p["max_indexes"] == IntParam(MaxIndexesDefault)
    ensures p["max_indexes_naive"] == IntParam(MaxIndexesNaiveDefault)
    ensures p["max_index_columns"] == IntParam(MaxIndexColumnsDefault)
    ensures p["cost_estimation"] == TextParam("whatif")
  {
    map["max_indexes" := IntParam(MaxIndexesDefault),
        "max_indexes_naive" := IntParam(MaxIndexesNaiveDefault),
        "max_index_columns" := IntParam(MaxIndexColumnsDefault),
        "cost_estimation" := TextParam("whatif")]
  }

  /** The three integer settings `__init__` reads from the merged parameters. */
  datatype Settings = Settings(maxIndexes: int, maxIndexesNaive: int, maxColumns: int)

  /** `__init__`: the naive limit is capped by `max_indexes`. */
  function NewSettings(maxIndexes: int, maxIndexesNaive: int, maxColumns: int): (st: Settings)
    ensures st.maxIndexes == maxIndexes && st.maxColumns == maxColumns
    ensures st.maxIndexesNaive <= st.maxIndexes && st.maxIndexesNaive <= maxIndexesNaive
    ensures st.maxIndexesNaive == maxIndexesNaive || st.maxIndexesNaive == maxIndexes
  {
    Settings(maxIndexes, Min(maxIndexesNaive, maxIndexes), maxColumns)
  }

  // ------------------------------------------------- potential indexes per query

  predicate LeadingColumnIn(q: Query, ix: Index) {
    |ix.columns| > 0 && ix.columns[0] in q.columns
  }

  /** The indexes `_potential_indexes_for_query` keeps. */
  function PotentialForQuery(potential: seq<Index>, q: Query): seq<Index> {
    Filter(potential, ix => LeadingColumnIn(q, ix))
  }

  /**
   * Exactly the potential indexes whose leading column the query
   * references, in their order and without repetitions.
   */
  lemma PotentialForQueryExactly(potential: seq<Index>, q: Query)
    requires forall ix :: ix in potential ==> Valid(ix)
    ensures forall ix :: ix in PotentialForQuery(potential, q) <==> ix in potential && Valid(ix) && ix.columns[0] in q.columns
    ensures Distinct(potential) ==> Distinct(PotentialForQuery(potential, q))
    ensures SubsequenceOf(PotentialForQuery(potential, q), potential)
  {
    FilterSubsequence(potential, ix => LeadingColumnIn(q, ix));
  }

  /** `_potential_indexes_for_query`: the loop adding each index whose leading column the query references. */
  method PotentialIndexesForQuery(q: Query, potential: seq<Index>) returns (r: seq<Index>)
    ensures r == PotentialForQuery(potential, q)
  {
    r := [];
    var i := 0;
    while i < |potential|
      invariant 0 <= i <= |potential|
      invariant r == PotentialForQuery(potential[..i], q)
    {
      var ix := potential[i];
      FilterPrefixStep(potential, i, ix => LeadingColumnIn(q, ix));
      if |ix.columns| > 0 && ix.columns[0] in q.columns {
        r := r + [ix];
      }
      i := i + 1;
    }
    assert potential[..i] == potential;
  }

  // ------------------------------------------------------------ enumeration

  /** The greedy phase here places no limit on which index may be added. */
  predicate NoLimit(current: seq<Index>, ix: Index) {
    true
  }

  /**
   * `enumerate_combinations`: the naive enumeration over sizes
   * 1 .. min(max_indexes_naive, |candidates|), then the greedy extension up
   * to min(max_indexes, |candidates|) indexes from the remaining candidates.
   */
  function Enumeration(candidates: seq<Index>, st: Settings, cost: set<Index> -> real): Result<Outcome<Index>> {
    var naive := NaiveChoice(candidates, 1, RangeLength(Min(st.maxIndexesNaive, |candidates|)), cost);
    Greedy(naive.indexes, naive.cost, Minus(candidates, naive.indexes), Some(Min(st.maxIndexes, |candidates|)),
           cost, NoLimit)
  }

  method EnumerateCombinations(candidates: seq<Index>, st: Settings, cost: set<Index> -> real)
    returns (r: Result<Outcome<Index>>)
    ensures r == Enumeration(candidates, st, cost)
  {
    var numberIndexesNaive := Min(st.maxIndexesNaive, |candidates|);
    var naive := EnumerateNaive(candidates, 1, RangeLength(numberIndexesNaive), cost);
    var numberIndexes := Min(st.maxIndexes, |candidates|);
    r := EnumerateGreedy(naive.indexes, naive.cost, Minus(candidates, naive.indexes), Some(numberIndexes), cost, NoLimit);
  }

  /**
   * Over repetition-free candidates it fails only with a TypeError, which
   * needs a naive limit below 1; the result is repetition-free, drawn from
   * the candidates and within min(max_indexes, |candidates|), and its cost
   * is the cost of the chosen set, never above the naive cost.
   */
  lemma EnumerationShape(candidates: seq<Index>, st: Settings, cost: set<Index> -> real)
    requires Distinct(candidates)
    requires st.maxIndexesNaive <= st.maxIndexes
    ensures var r := Enumeration(candidates, st, cost);
      var naive := NaiveChoice(candidates, 1, RangeLength(Min(st.maxIndexesNaive, |candidates|)), cost);
      (r.Err? ==> r.error == "TypeError" && st.maxIndexesNaive < 1 && |candidates| > 0) &&
      (r.Ok? ==>
        Distinct(r.value.indexes) && SetOf(r.value.indexes) <= SetOf(candidates) &&
        |r.value.indexes| <= RangeLength(Min(st.maxIndexes, |candidates|)) &&
        (r.value.cost.None? ==> r.value.indexes == []) &&
        (r.value.cost.Some? ==> r.value.cost.value == cost(SetOf(r.value.indexes))) &&
        (naive.cost.Some? ==> r.value.cost.Some? && r.value.cost.value <= naive.cost.value))
  {
    var count := RangeLength(Min(st.maxIndexesNaive, |candidates|));
    NaivePhaseShape(candidates, 1, count, cost);
    NaiveThenGreedy(candidates, 1, count, Min(st.maxIndexes, |candidates|), cost, NoLimit);
  }

  /**
   * The enumeration fails exactly when no naive size is tried although
   * there are candidates and room for an index: the greedy phase then
   * compares a cost with None.
   */
  lemma EnumerationFails(candidates: seq<Index>, st: Settings, cost: set<Index> -> real)
    requires Distinct(candidates)
    ensures Enumeration(candidates, st, cost).Err? <==>
      st.maxIndexesNaive < 1 && |candidates| > 0 && st.maxIndexes >= 1
  {
    var count := RangeLength(Min(st.maxIndexesNaive, |candidates|));
    var naive := NaiveChoice(candidates, 1, count, cost);
    var rest := Minus(candidates, naive.indexes);
    var bound := Some(Min(st.maxIndexes, |candidates|));
    var r := Greedy(naive.indexes, naive.cost, rest, bound, cost, NoLimit);
    assert Enumeration(candidates, st, cost) == r;
    NaivePhaseShape(candidates, 1, count, cost);
    GreedyExtends(naive.indexes, naive.cost, rest, bound, cost, NoLimit);
    GreedyUnfold(naive.indexes, naive.cost, rest, bound, cost, NoLimit);
    if count > 0 && |candidates| > 0 {
      assert naive.cost.Some?;
      assert r.Ok?;
    } else if st.maxIndexes < 1 || |candidates| == 0 {
      assert naive.indexes == [];
      assert AtBound(naive.indexes, bound);
      assert r.Ok?;
    } else {
      assert naive.indexes == [] && naive.cost.None?;
      MinusNothing(candidates);
      assert candidates[0] in Fitting(naive.indexes, rest, NoLimit);
      assert r.Err?;
    }
  }

  // ------------------------------------------------------- candidate selection

  /**
   * `select_index_candidates` as a fold over the queries: each query's
   * potential indexes are enumerated over that query alone and the result
   * is united into the candidates; the first failing query ends the loop.
   */
  function CandidatesOf(queries: seq<Query>, potential: seq<Index>, st: Settings,
                        oracle: (Query, set<Index>) -> real): Result<seq<Index>>
  {
    if |queries| == 0 then Ok([])
    else
      var prev := CandidatesOf(queries[..|queries| - 1], potential, st, oracle);
      var q := queries[|queries| - 1];
      if prev.Err? then prev
      else
        var e := Enumeration(PotentialForQuery(potential, q), st, CostOf(oracle, [q]));
        if e.Err? then Err(e.error) else Ok(Dedup(prev.value + e.value.indexes))
  }

  /** A failure at some query is the failure of the whole selection. */
  lemma {:induction false} CandidatesErrorSticks(queries: seq<Query>, k: nat, potential: seq<Index>, st: Settings,
                                                 oracle: (Query, set<Index>) -> real)
    requires k <= |queries|
    requires CandidatesOf(queries[..k], potential, st, oracle).Err?
    ensures CandidatesOf(queries, potential, st, oracle) == CandidatesOf(queries[..k], potential, st, oracle)
    decreases |queries| - k
  {
    if k < |queries| {
      assert queries[..k + 1][..k] == queries[..k];
      CandidatesErrorSticks(queries, k + 1, potential, st, oracle);
    } else {
      assert queries[..k] == queries;
    }
  }

  /** One more query extends the candidates with what its enumeration chose. */
  lemma CandidatesSnoc(queries: seq<Query>, i: nat, potential: seq<Index>, st: Settings,
                       oracle: (Query, set<Index>) -> real, e: Result<Outcome<Index>>)
    requires i < |queries|
    requires CandidatesOf(queries[..i], potential, st, oracle).Ok?
    requires e == Enumeration(PotentialForQuery(potential, queries[i]), st, CostOf(oracle, [queries[i]]))
    ensures e.Err? ==> CandidatesOf(queries[..i + 1], potential, st, oracle) == Err(e.error)
    ensures e.Ok? ==>
      CandidatesOf(queries[..i + 1], potential, st, oracle) ==
      Ok(Dedup(CandidatesOf(queries[..i], potential, st, oracle).value + e.value.indexes))
  {
    assert queries[..i + 1][..i] == queries[..i];
  }

  method SelectIndexCandidates(w: Workload, potential: seq<Index>, st: Settings,
                               oracle: (Query, set<Index>) -> real)
    returns (r: Result<seq<Index>>)
    ensures r == CandidatesOf(w.queries, potential, st, oracle)
  {
    var candidates: seq<Index> := [];
    var i := 0;
    while i < |w.queries|
      invariant 0 <= i <= |w.queries|
      invariant CandidatesOf(w.queries[..i], potential, st, oracle) == Ok(candidates)
    {
      var q := w.queries[i];
      var indexes := PotentialIndexesForQuery(q, potential);
      var e := EnumerateCombinations(indexes, st, CostOf(oracle, [q]));
      CandidatesSnoc(w.queries, i, potential, st, oracle, e);
      if e.Err? {
        CandidatesErrorSticks(w.queries, i + 1, potential, st, oracle);
        return Err(e.error);
      }
      candidates := Dedup(candidates + e.value.indexes);
      i := i + 1;
    }
    assert w.queries[..i] == w.queries;
    r := Ok(candidates);
  }

  /**
   * The candidates are repetition-free potential indexes whose leading
   * column some query references; an empty workload has none, and only a
   * TypeError of an enumeration can make the selection fail.
   */
  lemma CandidatesShape(queries: seq<Query>, potential: seq<Index>, st: Settings,
                        oracle: (Query, set<Index>) -> real)
    requires Distinct(potential) && forall ix :: ix in potential ==> Valid(ix)
    requires st.maxIndexesNaive <= st.maxIndexes
    ensures var r := CandidatesOf(queries, potential, st, oracle);
      (|queries| == 0 ==> r == Ok([])) &&
      (r.Err? ==> r.error == "TypeError") &&
      (r.Ok? ==> CandidatesFrom(queries, potential, r.value))
  {
    var choices := Choices(queries, potential, st, oracle);
    CandidatesAsFold(queries, potential, st, oracle);
    forall k | 0 <= k < |queries|
      ensures choices[k].Err? ==> choices[k].error == "TypeError"
      ensures choices[k].Ok? ==> forall ix :: ix in choices[k].value.indexes ==>
        ix in potential && Valid(ix) && ix.columns[0] in queries[k].columns
    {
      ChoicesAt(queries, potential, st, oracle, k);
      QueryEnumerationShape(potential, queries[k], st, oracle);
    }
    FoldShape(queries, potential, choices);
  }

  /** Each query's own enumeration, in workload order. */
  function Choices(queries: seq<Query>, potential: seq<Index>, st: Settings,
                   oracle: (Query, set<Index>) -> real): (r: seq<Result<Outcome<Index>>>)
    ensures |r| == |queries|
  {
    if |queries| == 0 then []
    else
      var q := queries[|queries| - 1];
      Choices(queries[..|queries| - 1], potential, st, oracle) +
        [Enumeration(PotentialForQuery(potential, q), st, CostOf(oracle, [q]))]
  }

  lemma {:induction false} ChoicesAt(queries: seq<Query>, potential: seq<Index>, st: Settings,
                                     oracle: (Query, set<Index>) -> real, k: nat)
    requires k < |queries|
    ensures Choices(queries, potential, st, oracle)[k] ==
      Enumeration(PotentialForQuery(potential, queries[k]), st, CostOf(oracle, [queries[k]]))
  {
    if k < |queries| - 1 {
      ChoicesAt(queries[..|queries| - 1], potential, st, oracle, k);
    }
  }

  /** The selection folded over the per-query enumerations, stopping at the first failure. */
  function FoldChoices(choices: seq<Result<Outcome<Index>>>): Result<seq<Index>> {
    if |choices| == 0 then Ok([])
    else
      var prev := FoldChoices(choices[..|choices| - 1]);
      var e := choices[|choices| - 1];
      if prev.Err? then prev
      else if e.Err? then Err(e.error)
      else Ok(Dedup(prev.value + e.value.indexes))
  }

  lemma {:induction false} CandidatesAsFold(queries: seq<Query>, potential: seq<Index>, st: Settings,
                                            oracle: (Query, set<Index>) -> real)
    ensures CandidatesOf(queries, potential, st, oracle) == FoldChoices(Choices(queries, potential, st, oracle))
  {
    if |queries| > 0 {
      var init := queries[..|queries| - 1];
      CandidatesAsFold(init, potential, st, oracle);
      assert Choices(queries, potential, st, oracle)[..|queries| - 1] == Choices(init, potential, st, oracle);
    }
  }

  lemma {:induction false} FoldShape(queries: seq<Query>, potential: seq<Index>, choices: seq<Result<Outcome<Index>>>)
    requires |choices| == |queries|
    requires forall k :: 0 <= k < |choices| ==> choices[k].Err? ==> choices[k].error == "TypeError"
    requires forall k :: 0 <= k < |choices| ==> choices[k].Ok? ==>
      forall ix :: ix in choices[k].value.indexes ==> ix in potential && Valid(ix) && ix.columns[0] in queries[k].columns
    ensures FoldChoices(choices).Err? ==> FoldChoices(choices).error == "TypeError"
    ensures FoldChoices(choices).Ok? ==> CandidatesFrom(queries, potential, FoldChoices(choices).value)
  {
    if |choices| > 0 {
      var n := |choices| - 1;
      var init := queries[..n];
      FoldShape(init, potential, choices[..n]);
      var prev := FoldChoices(choices[..n]);
      if prev.Ok? && choices[n].Ok? {
        assert queries == init + [queries[n]];
        UnionKeepsCandidates(queries, init, queries[n], potential, prev.value, choices[n].value.indexes);
      }
    }
  }

  /** The enumeration over one query's pool fails only with a TypeError and picks from the pool. */
  lemma QueryEnumerationShape(potential: seq<Index>, q: Query, st: Settings, oracle: (Query, set<Index>) -> real)
    requires Distinct(potential) && forall ix :: ix in potential ==> Valid(ix)
    requires st.maxIndexesNaive <= st.maxIndexes
    ensures var e := Enumeration(PotentialForQuery(potential, q), st, CostOf(oracle, [q]));
      (e.Err? ==> e.error == "TypeError") &&
      (e.Ok? ==> forall ix :: ix in e.value.indexes ==> ix in potential && Valid(ix) && ix.columns[0] in q.columns)
  {
    var pool := PotentialForQuery(potential, q);
    PotentialForQueryExactly(potential, q);
    EnumerationShape(pool, st, CostOf(oracle, [q]));
    var e := Enumeration(pool, st, CostOf(oracle, [q]));
    if e.Ok? {
      ChosenFromPool(pool, potential, q, e.value.indexes);
    }
  }

  /** What an enumeration picks from a query's pool is a potential index led by one of the query's columns. */
  lemma ChosenFromPool(pool: seq<Index>, potential: seq<Index>, q: Query, chosen: seq<Index>)
    requires forall ix :: ix in pool <==> ix in potential && Valid(ix) && ix.columns[0] in q.columns
    requires SetOf(chosen) <= SetOf(pool)
    ensures forall ix :: ix in chosen ==> ix in potential && Valid(ix) && ix.columns[0] in q.columns
  {
    forall ix | ix in chosen ensures ix in potential && Valid(ix) && ix.columns[0] in q.columns {
      assert ix in SetOf(chosen);
      assert ix in pool;
    }
  }

  /** Repetition-free potential indexes whose leading column some query references. */
  predicate CandidatesFrom(queries: seq<Query>, potential: seq<Index>, candidates: seq<Index>) {
    Distinct(candidates) &&
    forall ix :: ix in candidates ==> ix in potential && Valid(ix) && Referenced(queries, ix.columns[0])
  }

  lemma UnionKeepsCandidates(queries: seq<Query>, init: seq<Query>, q: Query, potential: seq<Index>,
                             prev: seq<Index>, chosen: seq<Index>)
    requires queries == init + [q]
    requires CandidatesFrom(init, potential, prev)
    requires forall ix :: ix in chosen ==> ix in potential && Valid(ix) && ix.columns[0] in q.columns
    ensures CandidatesFrom(queries, potential, Dedup(prev + chosen))
  {
    forall ix | ix in Dedup(prev + chosen) ensures Referenced(queries, ix.columns[0]) {
      if ix in prev {
        var p :| p in init && ix.columns[0] in p.columns;
        assert p in queries;
      } else {
        assert q in queries;
      }
    }
  }

  // ------------------------------------------------------ multicolumn indexes

  /** `(set(index.table().columns) & set(indexable_columns)) - set(index.columns)`. */
  function ExtensionColumns(ix: Index, tableColumns: string -> seq<Column>, indexable: seq<Column>): seq<Column>
    requires Valid(ix)
  {
    Minus(Intersect(tableColumns(TableOf(ix)), indexable), ix.columns)
  }

  /** The indexes one index extends to, one per extension column. */
  function Extensions(ix: Index, tableColumns: string -> seq<Column>, indexable: seq<Column>): seq<Index>
    requires Valid(ix)
  {
    var cols := ExtensionColumns(ix, tableColumns, indexable);
    seq(|cols|, k requires 0 <= k < |cols| => Index(ix.columns + [cols[k]]))
  }

  /** The extensions of every index, index by index. */
  function AllExtensions(indexes: seq<Index>, tableColumns: string -> seq<Column>, indexable: seq<Column>): seq<Index>
    requires forall ix :: ix in indexes ==> Valid(ix)
  {
    if |indexes| == 0 then []
    else
      AllExtensions(indexes[..|indexes| - 1], tableColumns, indexable) +
      Extensions(indexes[|indexes| - 1], tableColumns, indexable)
  }

  /**
   * `x` is an input index with one trailing column appended that belongs
   * to the index's table, is referenced by the workload and is not yet in
   * the index.
   */
  ghost predicate ExtendsOne(indexes: seq<Index>, tableColumns: string -> seq<Column>, w: Workload, x: Index) {
    exists ix, c :: ix in indexes && Valid(ix) && c in tableColumns(TableOf(ix)) &&
      Referenced(w.queries, c) && c !in ix.columns && x == Index(ix.columns + [c])
  }

  /** Every extension comes from an input index and one of its extension columns. */
  lemma {:induction false} ExtensionSource(indexes: seq<Index>, tableColumns: string -> seq<Column>,
                                           indexable: seq<Column>, x: Index)
    returns (ix: Index, c: Column)
    requires forall ix :: ix in indexes ==> Valid(ix)
    requires x in AllExtensions(indexes, tableColumns, indexable)
    ensures ix in indexes && Valid(ix) && c in ExtensionColumns(ix, tableColumns, indexable)
    ensures x == Index(ix.columns + [c])
  {
    var init := indexes[..|indexes| - 1];
    var last := indexes[|indexes| - 1];
    assert indexes == init + [last];
    var ext := Extensions(last, tableColumns, indexable);
    if x in ext {
      var cols := ExtensionColumns(last, tableColumns, indexable);
      var k :| 0 <= k < |ext| && ext[k] == x;
      ix, c := last, cols[k];
    } else {
      ix, c := ExtensionSource(init, tableColumns, indexable, x);
    }
  }

  /** Every input index extended by one of its extension columns is among the extensions. */
  lemma {:induction false} ExtensionPresent(indexes: seq<Index>, tableColumns: string -> seq<Column>,
                                            indexable: seq<Column>, ix: Index, c: Column)
    requires forall ix :: ix in indexes ==> Valid(ix)
    requires ix in indexes && c in ExtensionColumns(ix, tableColumns, indexable)
    ensures Index(ix.columns + [c]) in AllExtensions(indexes, tableColumns, indexable)
  {
    var init := indexes[..|indexes| - 1];
    var last := indexes[|indexes| - 1];
    assert indexes == init + [last];
    if ix == last {
      var cols := ExtensionColumns(last, tableColumns, indexable);
      var k :| 0 <= k < |cols| && cols[k] == c;
      assert Extensions(last, tableColumns, indexable)[k] == Index(ix.columns + [c]);
    } else {
      ExtensionPresent(init, tableColumns, indexable, ix, c);
    }
  }

  /** Over the workload's indexable columns, the extensions are exactly what `ExtendsOne` describes. */
  lemma ExtensionsMeaning(w: Workload, indexes: seq<Index>, tableColumns: string -> seq<Column>, indexable: seq<Column>)
    requires forall ix :: ix in indexes ==> Valid(ix)
    requires forall c :: c in indexable <==> Referenced(w.queries, c)
    ensures forall x :: x in AllExtensions(indexes, tableColumns, indexable) <==> ExtendsOne(indexes, tableColumns, w, x)
  {
    forall x ensures x in AllExtensions(indexes, tableColumns, indexable) <==> ExtendsOne(indexes, tableColumns, w, x) {
      if x in AllExtensions(indexes, tableColumns, indexable) {
        var ix, c := ExtensionSource(indexes, tableColumns, indexable, x);
        assert c in tableColumns(TableOf(ix)) && Referenced(w.queries, c) && c !in ix.columns;
      }
      if ExtendsOne(indexes, tableColumns, w, x) {
        var ix, c :| ix in indexes && Valid(ix) && c in tableColumns(TableOf(ix)) &&
          Referenced(w.queries, c) && c !in ix.columns && x == Index(ix.columns + [c]);
        ExtensionPresent(indexes, tableColumns, indexable, ix, c);
      }
    }
  }

  /** The inner loop: add each extension of one index unless it is already in the set. */
  method AddExtensions(r0: seq<Index>, ghost before: seq<Index>, ix: Index, tableColumns: string -> seq<Column>,
                       indexable: seq<Column>)
    returns (r: seq<Index>)
    requires Valid(ix)
    requires r0 == Dedup(before)
    ensures r == Dedup(before + Extensions(ix, tableColumns, indexable))
  {
    var cols := ExtensionColumns(ix, tableColumns, indexable);
    ghost var ext := Extensions(ix, tableColumns, indexable);
    r := r0;
    var j := 0;
    assert before + ext[..0] == before;
    while j < |cols|
      invariant 0 <= j <= |cols| == |ext|
      invariant r == Dedup(before + ext[..j])
    {
      var nx := Index(ix.columns + [cols[j]]);
      assert ext[j] == nx;
      DedupPrefixStep(before, ext, j);
      if nx !in r {
        r := r + [nx];
      }
      j := j + 1;
    }
    assert ext[..j] == ext;
  }

  /**
   * `create_multicolumn_indexes`: the set of every input index extended
   * by one column of its table that the workload references and the index
   * does not contain.
   */
  method CreateMulticolumnIndexes(w: Workload, indexes: seq<Index>, tableColumns: string -> seq<Column>)
    returns (r: seq<Index>)
    requires forall ix :: ix in indexes ==> Valid(ix)
    ensures Distinct(r)
    ensures forall x :: x in r <==> ExtendsOne(indexes, tableColumns, w, x)
  {
    var indexable := IndexableColumns(w);
    r := [];
    var i := 0;
    while i < |indexes|
      invariant 0 <= i <= |indexes|
      invariant r == Dedup(AllExtensions(indexes[..i], tableColumns, indexable))
    {
      assert indexes[..i + 1][..i] == indexes[..i];
      r := AddExtensions(r, AllExtensions(indexes[..i], tableColumns, indexable), indexes[i], tableColumns, indexable);
      i := i + 1;
    }
    assert indexes[..i] == indexes;
    ExtensionsMeaning(w, indexes, tableColumns, indexable);
  }

  /**
   * `_create_multicolumn_indexes` as written (line 170): for an index
   * built from a list of columns, as `Index([column])` builds every one,
   * `index.columns + (column,)` adds a tuple to a list, a TypeError at the
   * first index that has an extension column.
   */
  function CreateMulticolumnAsWritten(indexes: seq<Index>, tableColumns: string -> seq<Column>, indexable: seq<Column>)
    : Result<seq<Index>>
    requires forall ix :: ix in indexes ==> Valid(ix)
  {
    if |indexes| == 0 then Ok([])
    else
      var before := CreateMulticolumnAsWritten(indexes[..|indexes| - 1], tableColumns, indexable);
      if before.Err? then before
      else if |ExtensionColumns(indexes[|indexes| - 1], tableColumns, indexable)| > 0 then Err("TypeError")
      else before
  }

  /**
   * As written the extension fails exactly when the intended one would
   * produce some extension, and otherwise returns the same (empty) set.
   */
  lemma {:induction false} CreateMulticolumnAsWrittenFails(indexes: seq<Index>, tableColumns: string -> seq<Column>,
                                                           indexable: seq<Column>)
    requires forall ix :: ix in indexes ==> Valid(ix)
    ensures CreateMulticolumnAsWritten(indexes, tableColumns, indexable).Err? <==>
      |AllExtensions(indexes, tableColumns, indexable)| > 0
    ensures CreateMulticolumnAsWritten(indexes, tableColumns, indexable).Err? ==>
      CreateMulticolumnAsWritten(indexes, tableColumns, indexable).error == "TypeError"
    ensures CreateMulticolumnAsWritten(indexes, tableColumns, indexable).Ok? ==>
      CreateMulticolumnAsWritten(indexes, tableColumns, indexable).value == AllExtensions(indexes, tableColumns, indexable)
  {
    if |indexes| > 0 {
      CreateMulticolumnAsWrittenFails(indexes[..|indexes| - 1], tableColumns, indexable);
      assert |Extensions(indexes[|indexes| - 1], tableColumns, indexable)| ==
        |ExtensionColumns(indexes[|indexes| - 1], tableColumns, indexable)|;
    }
  }

  // ---------------------------------------------------------------- the search

  /**
   * What every index of a round of width `width` satisfies: at most
   * `width` distinct columns on one table, each one referenced by the
   * workload.
   */
  predicate Admissible(w: Workload, ix: Index, width: int) {
    Valid(ix) && |ix.columns| <= width && Distinct(ix.columns) && OnOneTable(ix) &&
    forall c :: c in ix.columns ==> Referenced(w.queries, c)
  }

  /** Widening an admissible index by an extension column gives an admissible index one column wider. */
  lemma ExtensionAdmissible(w: Workload, ix: Index, c: Column, width: int, tableColumns: string -> seq<Column>)
    requires forall t, d :: d in tableColumns(t) ==> d.table == t
    requires Admissible(w, ix, width)
    requires c in tableColumns(TableOf(ix)) && Referenced(w.queries, c) && c !in ix.columns
    ensures Admissible(w, Index(ix.columns + [c]), width + 1)
  {
    var cols := ix.columns + [c];
    forall i, j | 0 <= i < j < |cols| ensures cols[i] != cols[j] {
      if j == |ix.columns| {
        assert cols[i] in ix.columns;
      } else {
        assert cols[i] == ix.columns[i] && cols[j] == ix.columns[j];
      }
    }
  }

  /**
   * One pass of the width loop: select the candidates, enumerate them over
   * the whole workload and, unless this is the last width, widen the chosen
   * indexes into the next pass's potential indexes.
   */
  method WidthRound(w: Workload, potential: seq<Index>, st: Settings, oracle: (Query, set<Index>) -> real,
                    tableColumns: string -> seq<Column>, width: int, widen: bool)
    returns (r: Result<(seq<Index>, seq<Index>)>)
    requires st.maxIndexesNaive <= st.maxIndexes
    requires forall t, c :: c in tableColumns(t) ==> c.table == t
    requires Distinct(potential) && forall ix :: ix in potential ==> Admissible(w, ix, width)
    ensures r.Err? ==> r.error == "TypeError"
    ensures r.Ok? ==>
      Distinct(r.value.0) && |r.value.0| <= RangeLength(st.maxIndexes) &&
      (forall ix :: ix in r.value.0 ==> Admissible(w, ix, width)) &&
      Distinct(r.value.1) && forall ix :: ix in r.value.1 ==> Admissible(w, ix, width + 1)
  {
    var candidates := SelectIndexCandidates(w, potential, st, oracle);
    CandidatesShape(w.queries, potential, st, oracle);
    if candidates.Err? {
      return Err(candidates.error);
    }
    var e := EnumerateCombinations(candidates.value, st, CostOf(oracle, w.queries));
    EnumerationShape(candidates.value, st, CostOf(oracle, w.queries));
    if e.Err? {
      return Err(e.error);
    }
    var indexes := e.value.indexes;
    // The assertion `indexes <= candidates` of the source always holds.
    assert SetOf(indexes) <= SetOf(candidates.value);
    forall ix | ix in indexes ensures Admissible(w, ix, width) {
      assert ix in SetOf(candidates.value);
    }
    var next := potential;
    if widen {
      var multi := CreateMulticolumnIndexes(w, indexes, tableColumns);
      forall x | x in multi ensures Admissible(w, x, width + 1) {
        var ix, c :| ix in indexes && Valid(ix) && c in tableColumns(TableOf(ix)) &&
          Referenced(w.queries, c) && c !in ix.columns && x == Index(ix.columns + [c]);
        ExtensionAdmissible(w, ix, c, width, tableColumns);
      }
      next := Dedup(indexes + multi);
    }
    r := Ok((indexes, next));
  }

  /**
   * `_calculate_best_indexes`: `max_indexes == 0` returns nothing; with
   * no width to try, `indexes` is never bound (UnboundLocalError). The
   * result is repetition-free, within `max_indexes`, and every index is
   * at most `max_index_columns` wide, on one table, over referenced
   * distinct columns.
   */
  method CalculateBestIndexes(w: Workload, st: Settings, oracle: (Query, set<Index>) -> real,
                              tableColumns: string -> seq<Column>)
    returns (r: Result<seq<Index>>)
    requires st.maxIndexesNaive <= st.maxIndexes
    requires forall t, c :: c in tableColumns(t) ==> c.table == t
    ensures st.maxIndexes == 0 ==> r == Ok([])
    ensures st.maxIndexes != 0 && st.maxColumns < 1 ==> r == Err("UnboundLocalError")
    ensures r.Err? ==> r.error == "TypeError" || r.error == "UnboundLocalError"
    ensures r.Ok? ==>
      Distinct(r.value) && |r.value| <= RangeLength(st.maxIndexes) &&
      forall ix :: ix in r.value ==> Admissible(w, ix, st.maxColumns)
  {
    if st.maxIndexes == 0 {
      return Ok([]);
    }
    var potential := PotentialIndexes(w);
    forall ix | ix in potential ensures Admissible(w, ix, 1) {
      assert ix == Index([ix.columns[0]]);
    }
    var chosen: Option<seq<Index>> := None;
    var width := 1;
    while width <= st.maxColumns
      invariant 1 <= width
      invariant chosen.Some? <==> width > 1
      invariant chosen.Some? ==> width <= st.maxColumns + 1
      invariant Distinct(potential) && forall ix :: ix in potential ==> Admissible(w, ix, width)
      invariant chosen.Some? ==>
        Distinct(chosen.value) && |chosen.value| <= RangeLength(st.maxIndexes) &&
        forall ix :: ix in chosen.value ==> Admissible(w, ix, st.maxColumns)
      decreases st.maxColumns - width
    {
      var round := WidthRound(w, potential, st, oracle, tableColumns, width, width < st.maxColumns);
      if round.Err? {
        return Err(round.error);
      }
      var indexes := round.value.0;
      potential := round.value.1;
      chosen := Some(indexes);
      width := width + 1;
    }
    if chosen.None? {
      return Err("UnboundLocalError");
    }
    r := Ok(chosen.value);
  }
}
