/**
 * selection/algorithms/microsoft/candidate_index_selection.py: the
 * per-query candidate selection of AutoAdmin in object form. Each query
 * keeps the potential indexes all of whose columns it references, runs a
 * fresh `ConfigurationEnumeration` over a workload of that query alone,
 * and the chosen indexes of all queries are collected and de-duplicated.
 *
 * The cost evaluation is the oracle `oracle(query, indexes)`; the
 * microsoft algorithm contributes only its two limits.
 */
module CandidateIndexSelections {
  import opened Common
  import opened Indexes
  import opened Workloads
  import opened CostEvaluations
  import opened ConfigurationEnumerations

  /** Every column of the index is one the query references. */
  predicate ColumnsIn(q: Query, ix: Index) {
    forall c :: c in ix.columns ==> c in q.columns
  }

  /** The indexes `_filter_potential_indexes` keeps. */
  function FilterPotential(q: Query, potential: seq<Index>): seq<Index> {
    Filter(potential, ix => ColumnsIn(q, ix))
  }

  /**
   * Exactly the potential indexes all of whose columns the query
   * references, in their order and without repetitions.
   */
  lemma FilterPotentialExactly(q: Query, potential: seq<Index>)
    ensures forall ix :: ix in FilterPotential(q, potential) <==> ix in potential && ColumnsIn(q, ix)
    ensures Distinct(potential) ==> Distinct(FilterPotential(q, potential))
    ensures Search.SubsequenceOf(FilterPotential(q, potential), potential)
  {
    Search.FilterSubsequence(potential, ix => ColumnsIn(q, ix));
  }

  /** What one query contributes: the enumeration over its filtered indexes and its own cost. */
  function QueryChoice(q: Query, potential: seq<Index>, maxIndexesNaive: int, maxIndexes: int,
                       oracle: (Query, set<Index>) -> real): Result<Search.Outcome<Index>>
  {
    ConfigEnumeration(FilterPotential(q, potential), maxIndexesNaive, maxIndexes, CostOf(oracle, [q]))
  }

  /** The list `candidates` before de-duplication; the first failing enumeration ends the loop. */
  function Gathered(queries: seq<Query>, potential: seq<Index>, maxIndexesNaive: int, maxIndexes: int,
                    oracle: (Query, set<Index>) -> real): Result<seq<Index>>
  {
    if |queries| == 0 then Ok([])
    else
      var prev := Gathered(queries[..|queries| - 1], potential, maxIndexesNaive, maxIndexes, oracle);
      if prev.Err? then prev
      else
        var e := QueryChoice(queries[|queries| - 1], potential, maxIndexesNaive, maxIndexes, oracle);
        if e.Err? then Err(e.error) else Ok(prev.value + e.value.indexes)
  }

  /** What `select` returns: the gathered candidates, each once. */
  function Selection(queries: seq<Query>, potential: seq<Index>, maxIndexesNaive: int, maxIndexes: int,
                     oracle: (Query, set<Index>) -> real): Result<seq<Index>>
  {
    var g := Gathered(queries, potential, maxIndexesNaive, maxIndexes, oracle);
    if g.Err? then Err(g.error) else Ok(Dedup(g.value))
  }

  class CandidateIndexSelection {
    const oracle: (Query, set<Index>) -> real
    const maxIndexesNaive: int
    const maxIndexes: int

    /** `__init__`: the cost evaluation and the algorithm whose limits the enumerations use. */
    constructor (oracle: (Query, set<Index>) -> real, maxIndexesNaive: int, maxIndexes: int)
      ensures this.oracle == oracle
      ensures this.maxIndexesNaive == maxIndexesNaive && this.maxIndexes == maxIndexes
    {
      this.oracle := oracle;
      this.maxIndexesNaive := maxIndexesNaive;
      this.maxIndexes := maxIndexes;
    }

    /** `_filter_potential_indexes`: the loop appending every index all of whose columns the query references. */
    method FilterPotentialIndexes(q: Query, potential: seq<Index>) returns (r: seq<Index>)
      ensures r == FilterPotential(q, potential)
    {
      r := [];
      var i := 0;
      while i < |potential|
        invariant 0 <= i <= |potential|
        invariant r == FilterPotential(q, potential[..i])
      {
        var ix := potential[i];
        FilterPrefixStep(potential, i, ix => ColumnsIn(q, ix));
        if ColumnsIn(q, ix) {
          r := r + [ix];
        }
        i := i + 1;
      }
      assert potential[..i] == potential;
    }

    /** `select`: one fresh enumeration per query, their results extended into one list, then `list(set(...))`. */
    method Select(w: Workload, potential: seq<Index>) returns (r: Result<seq<Index>>)
      ensures r == Selection(w.queries, potential, maxIndexesNaive, maxIndexes, oracle)
    {
      var candidates: seq<Index> := [];
      var i := 0;
      while i < |w.queries|
        invariant 0 <= i <= |w.queries|
        invariant Gathered(w.queries[..i], potential, maxIndexesNaive, maxIndexes, oracle) == Ok(candidates)
      {
        var q := w.queries[i];
        var indexes := FilterPotentialIndexes(q, potential);
        var enumeration := new ConfigurationEnumeration(indexes, CostOf(oracle, [q]), maxIndexesNaive, maxIndexes, true);
        var e := enumeration.Enumerate();
        GatheredNext(w.queries, i, potential, maxIndexesNaive, maxIndexes, oracle, candidates, e);
        if e.Err? {
          return Err(e.error);
        }
        candidates := candidates + e.value;
        i := i + 1;
      }
      assert w.queries[..i] == w.queries;
      r := Ok(Dedup(candidates));
    }
  }

  /** One more query of `select`'s loop: its enumeration's failure ends the selection, its indexes are appended. */
  lemma GatheredNext(queries: seq<Query>, i: nat, potential: seq<Index>, maxIndexesNaive: int, maxIndexes: int,
                     oracle: (Query, set<Index>) -> real, candidates: seq<Index>, e: Result<seq<Index>>)
    requires i < |queries|
    requires Gathered(queries[..i], potential, maxIndexesNaive, maxIndexes, oracle) == Ok(candidates)
    requires var c := QueryChoice(queries[i], potential, maxIndexesNaive, maxIndexes, oracle);
      (c.Err? ==> e == Err(c.error)) && (c.Ok? ==> e == Ok(c.value.indexes))
    ensures e.Err? ==> Gathered(queries, potential, maxIndexesNaive, maxIndexes, oracle) == Err(e.error)
    ensures e.Ok? ==> Gathered(queries[..i + 1], potential, maxIndexesNaive, maxIndexes, oracle) == Ok(candidates + e.value)
  {
    assert queries[..i + 1][..i] == queries[..i];
    if e.Err? {
      GatheredErrorSticks(queries, i + 1, potential, maxIndexesNaive, maxIndexes, oracle);
    }
  }

  /** A failure at some query is the failure of the whole selection. */
  lemma {:induction false} GatheredErrorSticks(queries: seq<Query>, k: nat, potential: seq<Index>,
                                               maxIndexesNaive: int, maxIndexes: int,
                                               oracle: (Query, set<Index>) -> real)
    requires k <= |queries|
    requires Gathered(queries[..k], potential, maxIndexesNaive, maxIndexes, oracle).Err?
    ensures Gathered(queries, potential, maxIndexesNaive, maxIndexes, oracle)
         == Gathered(queries[..k], potential, maxIndexesNaive, maxIndexes, oracle)
    decreases |queries| - k
  {
    if k < |queries| {
      assert queries[..k + 1][..k] == queries[..k];
      GatheredErrorSticks(queries, k + 1, potential, maxIndexesNaive, maxIndexes, oracle);
    } else {
      assert queries[..k] == queries;
    }
  }

  /** The index was among those chosen by the enumeration over the single query `q`. */
  ghost predicate ChosenFor(q: Query, potential: seq<Index>, maxIndexesNaive: int, maxIndexes: int,
                            oracle: (Query, set<Index>) -> real, ix: Index)
  {
    var e := QueryChoice(q, potential, maxIndexesNaive, maxIndexes, oracle);
    e.Ok? && ix in e.value.indexes
  }

  /**
   * The gathered indexes are potential indexes all of whose columns some
   * query references, each chosen by the enumeration of one of the queries.
   */
  ghost predicate GatheredFrom(queries: seq<Query>, potential: seq<Index>, maxIndexesNaive: int, maxIndexes: int,
                               oracle: (Query, set<Index>) -> real, gathered: seq<Index>)
  {
    forall ix :: ix in gathered ==>
      ix in potential &&
      (forall c :: c in ix.columns ==> Referenced(queries, c)) &&
      exists q :: q in queries && ChosenFor(q, potential, maxIndexesNaive, maxIndexes, oracle, ix)
  }

  /** An empty workload yields no candidates; otherwise the selection fails exactly for a negative naive limit. */
  lemma {:induction false} SelectionFails(queries: seq<Query>, potential: seq<Index>, maxIndexesNaive: int,
                                          maxIndexes: int, oracle: (Query, set<Index>) -> real)
    requires Distinct(potential)
    ensures |queries| == 0 ==> Selection(queries, potential, maxIndexesNaive, maxIndexes, oracle) == Ok([])
    ensures Selection(queries, potential, maxIndexesNaive, maxIndexes, oracle).Err? <==>
      maxIndexesNaive < 0 && |queries| > 0
    ensures Selection(queries, potential, maxIndexesNaive, maxIndexes, oracle).Err? ==>
      Selection(queries, potential, maxIndexesNaive, maxIndexes, oracle).error == "TypeError"
  {
    GatheredFails(queries, potential, maxIndexesNaive, maxIndexes, oracle);
  }

  lemma {:induction false} GatheredFails(queries: seq<Query>, potential: seq<Index>, maxIndexesNaive: int,
                                         maxIndexes: int, oracle: (Query, set<Index>) -> real)
    requires Distinct(potential)
    ensures Gathered(queries, potential, maxIndexesNaive, maxIndexes, oracle).Err? <==>
      maxIndexesNaive < 0 && |queries| > 0
    ensures Gathered(queries, potential, maxIndexesNaive, maxIndexes, oracle).Err? ==>
      Gathered(queries, potential, maxIndexesNaive, maxIndexes, oracle).error == "TypeError"
  {
    if |queries| > 0 {
      var init := queries[..|queries| - 1];
      var q := queries[|queries| - 1];
      GatheredFails(init, potential, maxIndexesNaive, maxIndexes, oracle);
      FilterPotentialExactly(q, potential);
      ConfigEnumerationFails(FilterPotential(q, potential), maxIndexesNaive, maxIndexes, CostOf(oracle, [q]));
    }
  }

  /**
   * Over repetition-free potential indexes and a naive limit of at least
   * 0, `select` returns repetition-free potential indexes, every column of
   * which some query references, each chosen by the enumeration over a
   * single query of the workload.
   */
  lemma SelectionShape(queries: seq<Query>, potential: seq<Index>, maxIndexesNaive: int, maxIndexes: int,
                       oracle: (Query, set<Index>) -> real)
    requires Distinct(potential) && maxIndexesNaive >= 0
    ensures Selection(queries, potential, maxIndexesNaive, maxIndexes, oracle).Ok?
    ensures Distinct(Selection(queries, potential, maxIndexesNaive, maxIndexes, oracle).value)
    ensures GatheredFrom(queries, potential, maxIndexesNaive, maxIndexes, oracle,
                         Selection(queries, potential, maxIndexesNaive, maxIndexes, oracle).value)
  {
    GatheredFails(queries, potential, maxIndexesNaive, maxIndexes, oracle);
    GatheredShape(queries, potential, maxIndexesNaive, maxIndexes, oracle);
    var g := Gathered(queries, potential, maxIndexesNaive, maxIndexes, oracle).value;
    forall ix | ix in Dedup(g)
      ensures ix in potential
      ensures forall c :: c in ix.columns ==> Referenced(queries, c)
      ensures exists p :: p in queries && ChosenFor(p, potential, maxIndexesNaive, maxIndexes, oracle, ix)
    {
      assert ix in g;
    }
  }

  lemma {:induction false} GatheredShape(queries: seq<Query>, potential: seq<Index>, maxIndexesNaive: int,
                                         maxIndexes: int, oracle: (Query, set<Index>) -> real)
    requires Distinct(potential) && maxIndexesNaive >= 0
    ensures Gathered(queries, potential, maxIndexesNaive, maxIndexes, oracle).Ok? ==>
      GatheredFrom(queries, potential, maxIndexesNaive, maxIndexes, oracle,
                   Gathered(queries, potential, maxIndexesNaive, maxIndexes, oracle).value)
  {
    if |queries| > 0 {
      var init := queries[..|queries| - 1];
      var q := queries[|queries| - 1];
      GatheredShape(init, potential, maxIndexesNaive, maxIndexes, oracle);
      var prev := Gathered(init, potential, maxIndexesNaive, maxIndexes, oracle);
      var pool := FilterPotential(q, potential);
      var e := QueryChoice(q, potential, maxIndexesNaive, maxIndexes, oracle);
      if prev.Ok? && e.Ok? {
        assert queries == init + [q];
        assert Gathered(queries, potential, maxIndexesNaive, maxIndexes, oracle) == Ok(prev.value + e.value.indexes);
        assert forall ix :: ix in e.value.indexes ==> ix in potential && ColumnsIn(q, ix) by {
          FilterPotentialExactly(q, potential);
          ConfigEnumerationShape(pool, maxIndexesNaive, maxIndexes, CostOf(oracle, [q]));
          forall ix | ix in e.value.indexes ensures ix in potential && ColumnsIn(q, ix) {
            assert ix in SetOf(e.value.indexes);
            assert ix in pool;
          }
        }
        GatheredExtends(queries, init, q, potential, maxIndexesNaive, maxIndexes, oracle, prev.value, e.value.indexes);
      }
    }
  }

  lemma GatheredExtends(queries: seq<Query>, init: seq<Query>, q: Query, potential: seq<Index>,
                        maxIndexesNaive: int, maxIndexes: int, oracle: (Query, set<Index>) -> real,
                        prev: seq<Index>, chosen: seq<Index>)
    requires queries == init + [q]
    requires GatheredFrom(init, potential, maxIndexesNaive, maxIndexes, oracle, prev)
    requires QueryChoice(q, potential, maxIndexesNaive, maxIndexes, oracle).Ok?
    requires QueryChoice(q, potential, maxIndexesNaive, maxIndexes, oracle).value.indexes == chosen
    requires forall ix :: ix in chosen ==> ix in potential && ColumnsIn(q, ix)
    ensures GatheredFrom(queries, potential, maxIndexesNaive, maxIndexes, oracle, prev + chosen)
  {
    forall ix | ix in prev + chosen
      ensures ix in potential
      ensures forall c :: c in ix.columns ==> Referenced(queries, c)
      ensures exists p :: p in queries && ChosenFor(p, potential, maxIndexesNaive, maxIndexes, oracle, ix)
    {
      if ix in prev {
        var p :| p in init && ChosenFor(p, potential, maxIndexesNaive, maxIndexes, oracle, ix);
        assert p in queries;
        forall c | c in ix.columns ensures Referenced(queries, c) {
          var p' :| p' in init && c in p'.columns;
          assert p' in queries;
        }
      } else {
        assert q in queries;
        assert ChosenFor(q, potential, maxIndexesNaive, maxIndexes, oracle, ix);
      }
    }
  }
}
