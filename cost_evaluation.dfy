/**
 * selection/cost_evaluation.py: the cost of a workload under a set of
 * indexes, with the optional "pruning" cache of per-query costs keyed by the
 * query's relevant indexes.
 */
module CostEvaluations {
  import opened Common
  import opened Schema
  import opened Indexes
  import opened Workloads
  import opened Database
  import opened WhatIf

  /** One `(cost, relevant_indexes)` pair of a query's cost list. */
  datatype CacheEntry = CacheEntry(cost: real, relevant: seq<Index>)

  /** `costs` and `pruning_hits == [hits, misses]`. */
  datatype Cache = Cache(costs: map<Query, seq<CacheEntry>>, hits: nat, misses: nat)

  /** The per-query loop's running values: total cost, cache, queries sent to the database. */
  datatype LoopState = LoopState(total: real, cache: Cache, asked: seq<Query>)

  /** What one pruned query evaluation gives: its cost, the new cache, whether the database was asked. */
  datatype PruneOutcome = PruneOutcome(cost: real, cache: Cache, asked: bool)

  /** `any(c in query.columns for c in x.columns)`. */
  predicate SharesColumn(q: Query, ix: Index) {
    exists c :: c in ix.columns && c in q.columns
  }

  /** `[x for x in indexes if any(...)]`. */
  function RelevantUnsorted(q: Query, indexes: seq<Index>): (r: seq<Index>)
    ensures forall x :: x in r <==> x in indexes && SharesColumn(q, x)
    ensures multiset(r) <= multiset(indexes)
  {
    if |indexes| == 0 then []
    else
      var rest := RelevantUnsorted(q, indexes[..|indexes| - 1]);
      var x := indexes[|indexes| - 1];
      assert indexes == indexes[..|indexes| - 1] + [x];
      if SharesColumn(q, x) then rest + [x] else rest
  }

  /** `sorted(relevant_indexes)`. */
  function RelevantIndexes(q: Query, indexes: seq<Index>): seq<Index> {
    SortIndexes(RelevantUnsorted(q, indexes))
  }

  /** The relevant indexes are exactly the given ones that share a column with the query, sorted. */
  lemma RelevantIndexesExactly(q: Query, indexes: seq<Index>)
    ensures forall x :: x in RelevantIndexes(q, indexes) <==> x in indexes && SharesColumn(q, x)
    ensures SortedBy(RelevantIndexes(q, indexes), IndexLe)
    ensures multiset(RelevantIndexes(q, indexes)) <= multiset(indexes)
  {
    var u := RelevantUnsorted(q, indexes);
    forall x ensures x in RelevantIndexes(q, indexes) <==> x in u {
      assert x in multiset(RelevantIndexes(q, indexes)) <==> x in multiset(u);
    }
  }

  /** `next((x for x in list if x[1] == relevant_indexes), False)`. */
  function Lookup(entries: seq<CacheEntry>, relevant: seq<Index>): (r: Option<CacheEntry>)
    ensures r.Some? ==> r.value in entries && r.value.relevant == relevant
    ensures r.None? <==> forall e :: e in entries ==> e.relevant != relevant
  {
    if |entries| == 0 then None
    else if entries[0].relevant == relevant then Some(entries[0])
    else
      var r := Lookup(entries[1..], relevant);
      assert entries == [entries[0]] + entries[1..];
      r
  }

  /**
   * The loop body for one query while pruning: a stored entry for the same
   * relevant indexes is a hit and reuses its cost, unless that cost is 0,
   * which `not cost` treats as missing; then the database is asked, the miss
   * counted, and a new entry appended only if none was found.
   */
  function PruneStep(cache: Cache, q: Query, relevant: seq<Index>, answer: real): PruneOutcome
  {
    var found := if q in cache.costs then Lookup(cache.costs[q], relevant) else None;
    var hits := if found.Some? then cache.hits + 1 else cache.hits;
    if found.Some? && found.value.cost != 0.0 then
      PruneOutcome(found.value.cost, cache.(hits := hits), false)
    else
      var entries := if q in cache.costs then cache.costs[q] else [];
      var entries' := if found.None? then entries + [CacheEntry(answer, relevant)] else entries;
      PruneOutcome(answer, Cache(cache.costs[q := entries'], hits, cache.misses + 1), true)
  }

  /**
   * The query loop of `calculate_cost`: `oracle(q, simulated)` is what the
   * database answers for `q` while the indexes `simulated` are hypothetical.
   */
  function CostLoop(pruning: bool, cache: Cache, queries: seq<Query>, indexes: seq<Index>,
                    oracle: (Query, set<Index>) -> real, simulated: set<Index>): LoopState
  {
    if |queries| == 0 then LoopState(0.0, cache, [])
    else
      var prev := CostLoop(pruning, cache, queries[..|queries| - 1], indexes, oracle, simulated);
      var q := queries[|queries| - 1];
      var answer := oracle(q, simulated);
      if !pruning then LoopState(prev.total + answer, prev.cache, prev.asked + [q])
      else
        var o := PruneStep(prev.cache, q, RelevantIndexes(q, indexes), answer);
        LoopState(prev.total + o.cost, o.cache, prev.asked + (if o.asked then [q] else []))
  }

  /** One more query of the loop of `CostLoop`, as `calculate_cost`'s loop body takes it. */
  lemma CostLoopNext(pruning: bool, cache: Cache, queries: seq<Query>, i: nat, indexes: seq<Index>,
                     oracle: (Query, set<Index>) -> real, simulated: set<Index>, asked0: seq<Query>,
                     total: real, before: Cache, askedBefore: seq<Query>,
                     cost: real, after: Cache, askedAfter: seq<Query>)
    requires i < |queries|
    requires var prev := CostLoop(pruning, cache, queries[..i], indexes, oracle, simulated);
      total == prev.total && before == prev.cache && askedBefore == asked0 + prev.asked
    requires var q := queries[i];
      var answer := oracle(q, simulated);
      if !pruning then cost == answer && after == before && askedAfter == askedBefore + [q]
      else
        var o := PruneStep(before, q, RelevantIndexes(q, indexes), answer);
        cost == o.cost && after == o.cache && askedAfter == askedBefore + (if o.asked then [q] else [])
    ensures var s := CostLoop(pruning, cache, queries[..i + 1], indexes, oracle, simulated);
      total + cost == s.total && after == s.cache && askedAfter == asked0 + s.asked
  {
    assert queries[..i + 1][..i] == queries[..i];
  }

  /** The sum over the workload of each query's cost under `simulated`. */
  function WorkloadCost(oracle: (Query, set<Index>) -> real, queries: seq<Query>, simulated: set<Index>): real
  {
    if |queries| == 0 then 0.0
    else WorkloadCost(oracle, queries[..|queries| - 1], simulated) + oracle(queries[|queries| - 1], simulated)
  }

  /**
   * `calculate_cost` of a fixed workload as a function of the index set
   * alone, the form the search strategies use (for a one-query workload
   * `Workload([query], ...)` pass `[query]`).
   */
  function CostOf(oracle: (Query, set<Index>) -> real, queries: seq<Query>): set<Index> -> real {
    s => WorkloadCost(oracle, queries, s)
  }

  /** Without pruning each query is sent to the database once, the costs are summed and the cache is untouched. */
  lemma {:induction false} UnprunedCost(cache: Cache, queries: seq<Query>, indexes: seq<Index>,
                                        oracle: (Query, set<Index>) -> real, simulated: set<Index>)
    ensures CostLoop(false, cache, queries, indexes, oracle, simulated) ==
      LoopState(WorkloadCost(oracle, queries, simulated), cache, queries)
  {
    if |queries| > 0 {
      UnprunedCost(cache, queries[..|queries| - 1], indexes, oracle, simulated);
      assert queries[..|queries| - 1] + [queries[|queries| - 1]] == queries;
    }
  }

  /** Every stored cost is what the database answers for exactly its relevant indexes. */
  ghost predicate CacheSound(cache: Cache, oracle: (Query, set<Index>) -> real) {
    forall q, e :: q in cache.costs && e in cache.costs[q] ==> e.cost == oracle(q, SetOf(e.relevant))
  }

  /** The database's cost of each query depends only on the simulated indexes relevant to it. */
  ghost predicate CostDependsOnRelevant(oracle: (Query, set<Index>) -> real, indexes: seq<Index>, simulated: set<Index>) {
    forall q :: oracle(q, simulated) == oracle(q, SetOf(RelevantIndexes(q, indexes)))
  }

  lemma PruneStepSound(cache: Cache, q: Query, indexes: seq<Index>,
                       oracle: (Query, set<Index>) -> real, simulated: set<Index>)
    requires CacheSound(cache, oracle) && CostDependsOnRelevant(oracle, indexes, simulated)
    ensures var o := PruneStep(cache, q, RelevantIndexes(q, indexes), oracle(q, simulated));
      o.cost == oracle(q, simulated) && CacheSound(o.cache, oracle)
  {
    var relevant := RelevantIndexes(q, indexes);
    var o := PruneStep(cache, q, relevant, oracle(q, simulated));
    assert oracle(q, simulated) == oracle(q, SetOf(relevant));
    forall q', e | q' in o.cache.costs && e in o.cache.costs[q'] ensures e.cost == oracle(q', SetOf(e.relevant)) {
      if q' == q && q !in cache.costs {
        assert e == CacheEntry(oracle(q, simulated), relevant);
      } else if q' == q {
        assert e in cache.costs[q] || e == CacheEntry(oracle(q, simulated), relevant);
      }
    }
  }

  /**
   * Pruning is sound: when every stored cost is the database's answer for its
   * relevant indexes and a query's cost depends only on its relevant
   * indexes, the pruned total equals the workload cost and the cache stays
   * sound.
   */
  lemma {:induction false} PrunedCostAgrees(cache: Cache, queries: seq<Query>, indexes: seq<Index>,
                                            oracle: (Query, set<Index>) -> real, simulated: set<Index>)
    requires CacheSound(cache, oracle) && CostDependsOnRelevant(oracle, indexes, simulated)
    ensures var s := CostLoop(true, cache, queries, indexes, oracle, simulated);
      s.total == WorkloadCost(oracle, queries, simulated) && CacheSound(s.cache, oracle)
  {
    if |queries| > 0 {
      var init := queries[..|queries| - 1];
      PrunedCostAgrees(cache, init, indexes, oracle, simulated);
      var prev := CostLoop(true, cache, init, indexes, oracle, simulated);
      PruneStepSound(prev.cache, queries[|queries| - 1], indexes, oracle, simulated);
    }
  }

  /** A hit reuses the stored cost and counts one hit; the database is not asked. */
  lemma PruneStepHit(cache: Cache, q: Query, relevant: seq<Index>, answer: real)
    requires q in cache.costs && Lookup(cache.costs[q], relevant).Some?
    requires Lookup(cache.costs[q], relevant).value.cost != 0.0
    ensures var o := PruneStep(cache, q, relevant, answer);
      !o.asked && o.cost == Lookup(cache.costs[q], relevant).value.cost &&
      o.cache == cache.(hits := cache.hits + 1)
  {
  }

  /** A stored cost of 0 counts as a hit and still asks the database, without a new entry. */
  lemma PruneStepZeroIsRequeried(cache: Cache, q: Query, relevant: seq<Index>, answer: real)
    requires q in cache.costs && Lookup(cache.costs[q], relevant).Some?
    requires Lookup(cache.costs[q], relevant).value.cost == 0.0
    ensures var o := PruneStep(cache, q, relevant, answer);
      o.asked && o.cost == answer &&
      o.cache == Cache(cache.costs, cache.hits + 1, cache.misses + 1)
  {
    var entries := cache.costs[q];
    assert cache.costs[q := entries] == cache.costs;
  }

  /** A miss asks the database, counts one miss and appends `(cost, relevant)` to the query's list. */
  lemma PruneStepMiss(cache: Cache, q: Query, relevant: seq<Index>, answer: real)
    requires q !in cache.costs || Lookup(cache.costs[q], relevant).None?
    ensures var o := PruneStep(cache, q, relevant, answer);
      o.asked && o.cost == answer && o.cache.hits == cache.hits && o.cache.misses == cache.misses + 1 &&
      o.cache.costs == cache.costs[q := (if q in cache.costs then cache.costs[q] else []) + [CacheEntry(answer, relevant)]]
  {
  }

  /** Every query of the loop is either a hit or a miss, and each miss asks the database once. */
  lemma {:induction false} CostLoopCounts(pruning: bool, cache: Cache, queries: seq<Query>, indexes: seq<Index>,
                                          oracle: (Query, set<Index>) -> real, simulated: set<Index>)
    requires pruning
    ensures var s := CostLoop(pruning, cache, queries, indexes, oracle, simulated);
      s.cache.misses == cache.misses + |s.asked| &&
      cache.hits <= s.cache.hits && s.cache.hits + s.cache.misses <= cache.hits + cache.misses + 2 * |queries| &&
      |s.asked| <= |queries|
  {
    if |queries| > 0 {
      CostLoopCounts(pruning, cache, queries[..|queries| - 1], indexes, oracle, simulated);
    }
  }

  function IndexValues(objects: seq<IndexObject>): (r: seq<Index>)
    ensures |r| == |objects| && forall k :: 0 <= k < |objects| ==> r[k] == objects[k].index
  {
    seq(|objects|, k requires 0 <= k < |objects| => objects[k].index)
  }

  lemma MapValuesInsert(m: map<nat, Index>, k: nat, v: Index)
    requires k !in m
    ensures m[k := v].Values == m.Values + {v}
  {
    forall x | x in m.Values ensures x in m[k := v].Values {
      var j :| j in m && m[j] == x;
      assert m[k := v][j] == x;
    }
    assert m[k := v][k] == v;
  }

  class CostEvaluation {
    const connector: Connector
    const whatIf: WhatIfIndexCreation
    var costEstimation: string
    var pruning: bool
    var cache: Cache

    ghost predicate Valid()
      reads this, whatIf, connector
    {
      whatIf.connector == connector && whatIf.Valid()
    }

    /** A new evaluation: what-if mode by default, no pruning, `pruning_hits == [0, 0]`, no costs. */
    constructor (connector: Connector, costEstimation: string)
      requires connector.Valid()
      ensures Valid() && fresh(whatIf)
      ensures this.connector == connector && this.costEstimation == costEstimation
      ensures !pruning && cache == Cache(map[], 0, 0)
      ensures whatIf.keys == []
    {
      this.connector := connector;
      whatIf := new WhatIfIndexCreation(connector);
      this.costEstimation := costEstimation;
      pruning := false;
      cache := Cache(map[], 0, 0);
    }

    /** `reset_pruning`: pruning on, both counters 0, no stored costs. */
    method ResetPruning()
      modifies this`pruning, this`cache
      ensures pruning && cache == Cache(map[], 0, 0)
      ensures costEstimation == old(costEstimation)
    {
      pruning := true;
      cache := Cache(map[], 0, 0);
    }

    /** `_prepare_cost_calculation`: only the what-if mode simulates, every index once, in order. */
    method PrepareCostCalculation(indexes: seq<IndexObject>, storeSize: bool) returns (ghost added: seq<nat>)
      requires Valid()
      modifies whatIf, connector, set ix | ix in indexes
      ensures Valid()
      ensures costEstimation != "whatif" ==>
        added == [] && connector.hypothetical == old(connector.hypothetical) && whatIf.keys == old(whatIf.keys)
      ensures whatIf.keys == old(whatIf.keys) + added
      ensures forall k :: k in added ==> k !in old(connector.hypothetical)
      ensures forall k :: k in old(connector.hypothetical) ==>
        k in connector.hypothetical && connector.hypothetical[k] == old(connector.hypothetical)[k]
      ensures forall k :: k in connector.hypothetical && k !in old(connector.hypothetical) ==> k in added
      ensures costEstimation == "whatif" ==>
        connector.hypothetical.Values == old(connector.hypothetical.Values) + SetOf(IndexValues(indexes))
      ensures connector.asked == old(connector.asked)
    {
      added := [];
      if costEstimation == "whatif" {
        var i := 0;
        while i < |indexes|
          invariant 0 <= i <= |indexes| && Valid()
          invariant connector.hypothetical.Values == old(connector.hypothetical.Values) + SetOf(IndexValues(indexes)[..i])
          invariant forall k :: k in old(connector.hypothetical) ==>
            k in connector.hypothetical && connector.hypothetical[k] == old(connector.hypothetical)[k]
          invariant forall k :: k in connector.hypothetical && k !in old(connector.hypothetical) ==> k in added
          invariant whatIf.keys == old(whatIf.keys) + added
          invariant forall k :: k in added ==> k !in old(connector.hypothetical)
          invariant connector.asked == old(connector.asked)
        {
          ghost var before := connector.hypothetical;
          var oid, name := whatIf.SimulateIndex(indexes[i], storeSize);
          MapValuesInsert(before, oid, indexes[i].index);
          assert IndexValues(indexes)[..i + 1] == IndexValues(indexes)[..i] + [indexes[i].index];
          added := added + [oid];
          i := i + 1;
        }
        assert IndexValues(indexes)[..i] == IndexValues(indexes);
      }
    }

    /** `_complete_cost_estimation`: every tracked simulation is dropped. */
    method CompleteCostEstimation()
      requires Valid()
      modifies whatIf`keys, whatIf`names, connector`hypothetical, connector`statements
      ensures Valid()
      ensures whatIf.keys == [] && whatIf.names == map[]
      ensures connector.hypothetical == old(connector.hypothetical) - SetOf(old(whatIf.keys))
      ensures connector.statements == old(connector.statements) + DropStatements(old(whatIf.keys))
    {
      whatIf.DropAllSimulatedIndexes();
    }

    /** The loop body of `calculate_cost` for one query. */
    method QueryCost(q: Query, values: seq<Index>) returns (cost: real)
      modifies this`cache, connector`asked
      ensures var answer := connector.cost(q, connector.hypothetical.Values);
        if !pruning then cost == answer && cache == old(cache) && connector.asked == old(connector.asked) + [q]
        else
          var o := PruneStep(old(cache), q, RelevantIndexes(q, values), answer);
          cost == o.cost && cache == o.cache && connector.asked == old(connector.asked) + (if o.asked then [q] else [])
    {
      if pruning {
        var relevant := RelevantIndexes(q, values);
        var found := if q in cache.costs then Lookup(cache.costs[q], relevant) else None;
        if found.Some? {
          cache := cache.(hits := cache.hits + 1);
        }
        if found.Some? && found.value.cost != 0.0 {
          cost := found.value.cost;
        } else {
          cost := connector.GetCost(q);
          var entries := if q in cache.costs then cache.costs[q] else [];
          if found.None? {
            entries := entries + [CacheEntry(cost, relevant)];
          }
          cache := Cache(cache.costs[q := entries], cache.hits, cache.misses + 1);
        }
      } else {
        cost := connector.GetCost(q);
      }
    }

    /** The query loop of `calculate_cost`, summing `total_cost`. */
    method EvaluateQueries(w: Workload, values: seq<Index>) returns (total: real)
      modifies this`cache, connector`asked
      ensures var s := CostLoop(pruning, old(cache), w.queries, values, connector.cost, connector.hypothetical.Values);
        total == s.total && cache == s.cache && connector.asked == old(connector.asked) + s.asked
    {
      ghost var oracle, simulated, cache0, asked0 := connector.cost, connector.hypothetical.Values, cache, connector.asked;
      total := 0.0;
      var i := 0;
      while i < |w.queries|
        invariant 0 <= i <= |w.queries|
        invariant connector.cost == oracle && connector.hypothetical.Values == simulated
        invariant var s := CostLoop(pruning, cache0, w.queries[..i], values, oracle, simulated);
          total == s.total && cache == s.cache && connector.asked == asked0 + s.asked
      {
        ghost var cacheBefore, askedBefore := cache, connector.asked;
        var cost := QueryCost(w.queries[i], values);
        CostLoopNext(pruning, cache0, w.queries, i, values, oracle, simulated, asked0,
                     total, cacheBefore, askedBefore, cost, cache, connector.asked);
        total := total + cost;
        i := i + 1;
      }
      assert w.queries[..i] == w.queries;
    }

    /**
     * `calculate_cost`: the total over the workload's queries as the query
     * loop computes it with the indexes simulated that were simulated on
     * entry, plus, with `simulate` in what-if mode, the given ones. With
     * `simulate` every tracked simulation is dropped afterwards.
     */
    method CalculateCost(w: Workload, indexes: seq<IndexObject>, storeSize: bool, simulate: bool)
      returns (total: real)
      requires Valid()
      modifies this`cache, whatIf, connector, set ix | ix in indexes
      ensures Valid()
      ensures var simulated := if simulate && costEstimation == "whatif"
                               then old(connector.hypothetical.Values) + SetOf(IndexValues(indexes))
                               else old(connector.hypothetical.Values);
        var s := CostLoop(pruning, old(cache), w.queries, IndexValues(indexes), connector.cost, simulated);
        total == s.total && cache == s.cache && connector.asked == old(connector.asked) + s.asked
      ensures simulate ==>
        whatIf.keys == [] && connector.hypothetical == old(connector.hypothetical) - SetOf(old(whatIf.keys))
      ensures !simulate ==>
        whatIf.keys == old(whatIf.keys) && connector.hypothetical == old(connector.hypothetical)
    {
      ghost var added: seq<nat> := [];
      if simulate {
        added := PrepareCostCalculation(indexes, storeSize);
      }
      ghost var keysBefore := whatIf.keys;
      total := EvaluateQueries(w, IndexValues(indexes));
      if simulate {
        CompleteCostEstimation();
        assert keysBefore == old(whatIf.keys) + added;
        forall k ensures k in connector.hypothetical <==> k in old(connector.hypothetical) - SetOf(old(whatIf.keys)) {
          assert k in added ==> k in keysBefore;
        }
      }
    }
  }
}
