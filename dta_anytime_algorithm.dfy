/**
 * selection/algorithms/dta_anytime_algorithm.py: the indexes some query's
 * plan used (the recommendation step of the DB2 advisor, copied there and
 * shared here) are the candidates of the AutoAdmin greedy enumeration,
 * started from no index, with no bound on the number of indexes and with
 * every configuration over the disk budget skipped.
 *
 * `cost` is `_simulate_and_evaluate_cost`: `CostEvaluations.CostEvaluation.CalculateCost`
 * over the workload, rounded to two decimals, read as a function of the
 * index set; sizes come from the size
 * oracle.
 */
module DtaAnytime {
  import opened Common
  import opened Indexes
  import opened Workloads
  import opened Search
  import opened WhatIf
  import opened SelectionAlgorithms
  import Ibm = IbmAlgorithm

  /** `DEFAULT_PARAMETERS`. */
  function DefaultParameters(): (p: Params)
    ensures p.Keys == {"max_index_columns", "budget"}
  {
    map["max_index_columns" := IntParam(3), "budget" := IntParam(500)]
  }

  /** `__init__`: `disk_constraint` is the budget in MB times 1,000,000. */
  function DiskConstraint(p: Params): Option<int> {
    var budget := Ibm.IntSetting(p, "budget");
    if budget.Some? then Some(budget.value * 1000000) else None
  }

  /** The budget is read in MB and stored in bytes; the default gives 500,000,000. */
  lemma DiskConstraintInBytes(p: Params)
    ensures DiskConstraint(p).Some? <==> "budget" in p && p["budget"].IntParam?
    ensures DiskConstraint(p).Some? ==> DiskConstraint(p).value == p["budget"].n * 1000000
    ensures DiskConstraint(DefaultParameters()) == Some(500000000)
  {
    assert Ibm.IntSetting(DefaultParameters(), "budget") == Some(500);
  }

  /** A candidate is tried only if the current indexes and it together stay within the disk budget. */
  function FitsBudget(sizeOf: Index -> nat, disk: int): (seq<Index>, Index) -> bool {
    (current: seq<Index>, x: Index) => TotalSize(sizeOf, current + [x]) <= disk
  }

  /**
   * What `_calculate_best_indexes` does with the candidates: the greedy
   * enumeration from no index, at the cost of no index, unbounded
   * (`math.inf`).
   */
  function Anytime(candidates: seq<Index>, disk: int, cost: set<Index> -> real, sizeOf: Index -> nat): Result<Outcome<Index>> {
    Greedy([], Some(cost({})), candidates, None, cost, FitsBudget(sizeOf, disk))
  }

  /** `_calculate_best_indexes` for given candidates. */
  method Select(candidates: seq<Index>, disk: int, cost: set<Index> -> real, sizeOf: Index -> nat)
    returns (r: Result<seq<Index>>)
    ensures var a := Anytime(candidates, disk, cost, sizeOf);
      r == if a.Ok? then Ok(a.value.indexes) else Err(a.error)
  {
    var currentCosts := cost({});
    var g := EnumerateGreedy([], Some(currentCosts), candidates, None, cost, FitsBudget(sizeOf, disk));
    if g.Err? {
      return Err(g.error);
    }
    r := Ok(g.value.indexes);
  }

  /** `_calculate_best_indexes`: the recommended candidates, greedily combined within the budget. */
  method CalculateBestIndexes(whatIf: WhatIfIndexCreation, w: Workload, maxColumns: int, disk: int,
                              cost: set<Index> -> real)
    returns (r: Result<seq<Index>>)
    requires whatIf.Valid()
    modifies whatIf, whatIf.connector
    ensures whatIf.Valid()
    ensures var trace := Ibm.Trace(Ibm.OracleOf(whatIf.connector), old(Ibm.StateOf(whatIf)), w.queries, maxColumns);
      var a := Anytime(Ibm.Union(trace), disk, cost, whatIf.connector.sizeOf);
      r == if a.Ok? then Ok(a.value.indexes) else Err(a.error)
  {
    var _, candidates := Ibm.ExploitVirtualIndexes(whatIf, w, maxColumns);
    r := Select(candidates, disk, cost, whatIf.connector.sizeOf);
  }

  // ------------------------------------------------------------ properties

  /**
   * On repetition-free candidates the enumeration never fails (starting
   * from no index the disjointness assertion holds and the current cost
   * is known). It returns candidates without repetition; a non-empty
   * result fits the disk budget, its cost is that of the chosen set and
   * lies strictly below the cost without indexes; an empty result keeps
   * the cost without indexes.
   */
  lemma AnytimeShape(candidates: seq<Index>, disk: int, cost: set<Index> -> real, sizeOf: Index -> nat)
    requires Distinct(candidates)
    ensures var r := Anytime(candidates, disk, cost, sizeOf);
      r.Ok? &&
      Distinct(r.value.indexes) && SetOf(r.value.indexes) <= SetOf(candidates) &&
      (|r.value.indexes| > 0 ==>
        TotalSize(sizeOf, r.value.indexes) <= disk &&
        r.value.cost.Some? && r.value.cost.value == cost(SetOf(r.value.indexes)) && r.value.cost.value < cost({})) &&
      (|r.value.indexes| == 0 ==> r.value.cost == Some(cost({})))
  {
    var fits := FitsBudget(sizeOf, disk);
    assert SetOf<Index>([]) == {};
    GreedyExtends([], Some(cost({})), candidates, None, cost, fits);
    GreedyLowersCost([], Some(cost({})), candidates, None, cost, fits);
    GreedyAddsFitting([], Some(cost({})), candidates, None, cost, fits);
    var r := Anytime(candidates, disk, cost, sizeOf);
    if r.Ok? && |r.value.indexes| > 0 {
      var out := r.value.indexes;
      var k := |out| - 1;
      assert fits(out[..k], out[k]);
      assert out[..k] + [out[k]] == out;
    }
  }

  /**
   * Every index the enumeration adds fits the budget next to those chosen
   * before it, so every intermediate configuration fits too.
   */
  lemma AnytimeEveryStepFits(candidates: seq<Index>, disk: int, cost: set<Index> -> real, sizeOf: Index -> nat)
    requires Distinct(candidates)
    ensures var r := Anytime(candidates, disk, cost, sizeOf);
      r.Ok? ==> forall k :: 0 < k <= |r.value.indexes| ==> TotalSize(sizeOf, r.value.indexes[..k]) <= disk
  {
    var fits := FitsBudget(sizeOf, disk);
    assert SetOf<Index>([]) == {};
    GreedyAddsFitting([], Some(cost({})), candidates, None, cost, fits);
    var r := Anytime(candidates, disk, cost, sizeOf);
    if r.Ok? {
      PrefixesFit(r.value.indexes, disk, sizeOf);
    }
  }

  /** Indexes each fitting next to those before them: every prefix fits. */
  lemma PrefixesFit(out: seq<Index>, disk: int, sizeOf: Index -> nat)
    requires FitsInOrder(out, 0, FitsBudget(sizeOf, disk))
    ensures forall k :: 0 < k <= |out| ==> TotalSize(sizeOf, out[..k]) <= disk
  {
    var fits := FitsBudget(sizeOf, disk);
    forall k | 0 < k <= |out| ensures TotalSize(sizeOf, out[..k]) <= disk {
      assert fits(out[..k - 1], out[k - 1]);
      assert out[..k - 1] + [out[k - 1]] == out[..k];
    }
  }

  /**
   * With no bound on the number of indexes the enumeration stops only when
   * no candidate left out would both fit the budget and make the result
   * strictly cheaper.
   */
  lemma AnytimeStopsAtLocalMinimum(candidates: seq<Index>, disk: int, cost: set<Index> -> real, sizeOf: Index -> nat,
                                   c: Index)
    requires Distinct(candidates) && c in candidates
    ensures var r := Anytime(candidates, disk, cost, sizeOf);
      r.Ok? && c !in r.value.indexes && TotalSize(sizeOf, r.value.indexes + [c]) <= disk ==>
        r.value.cost.Some? && r.value.cost.value <= cost(SetOf(r.value.indexes) + {c})
  {
    var fits := FitsBudget(sizeOf, disk);
    assert SetOf<Index>([]) == {};
    AnytimeShape(candidates, disk, cost, sizeOf);
    GreedyStopsAtLocalMinimum([], Some(cost({})), candidates, None, cost, fits, c);
  }

  /**
   * `enumerate_greedy` enforces its disjointness assertion: with current
   * and candidate indexes overlapping it fails with an AssertionError
   * before anything else.
   */
  lemma EnumerateGreedyRejectsOverlap(current: seq<Index>, currentCost: Option<real>, candidates: seq<Index>,
                                      disk: int, cost: set<Index> -> real, sizeOf: Index -> nat, x: Index)
    requires x in current && x in candidates
    ensures Greedy(current, currentCost, candidates, None, cost, FitsBudget(sizeOf, disk)) == Err("AssertionError")
  {
    assert x in SetOf(current) * SetOf(candidates);
  }
}
