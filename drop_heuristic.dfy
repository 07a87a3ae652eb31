/**
 * selection/algorithms/drop_heuristic_algorithm.py: start from every
 * potential index and drop, one at a time, the index whose removal gives
 * the lowest workload cost, until at most `max_indexes` remain.
 *
 * `cost` is the workload's cost under a set of indexes, what
 * `cost_evaluation.calculate_cost(workload, indexes)` returns; a Python set
 * is modelled by a repetition-free sequence whose order is the iteration
 * order.
 */
module DropHeuristic {
  import opened Common
  import opened Indexes
  import opened Workloads
  import opened Search
  import opened SelectionAlgorithms

  const MaxIndexesDefault := 15

  /** `DEFAULT_PARAMETERS`. */
  function DefaultParameters(): (p: Params)
    ensures p.Keys == {"max_indexes", "cost_estimation"}
    ensures p["max_indexes"] == IntParam(MaxIndexesDefault)
    ensures p["cost_estimation"] == TextParam("whatif")
  {
    map["max_indexes" := IntParam(MaxIndexesDefault), "cost_estimation" := TextParam("whatif")]
  }

  /** The cost the inner loop obtains for dropping each remaining index in turn. */
  function DropCosts(remaining: seq<Index>, cost: set<Index> -> real): (r: seq<real>)
    ensures |r| == |remaining|
    ensures forall k :: 0 <= k < |r| ==> r[k] == cost(SetOf(remaining) - {remaining[k]})
  {
    seq(|remaining|, k requires 0 <= k < |remaining| => cost(SetOf(remaining) - {remaining[k]}))
  }

  /** The position of the index the inner loop picks, under `not lowest_cost or cost < lowest_cost`. */
  function DropChoice(remaining: seq<Index>, cost: set<Index> -> real): (at: nat)
    requires |remaining| > 0
    ensures at < |remaining|
  {
    RunningMin(DropCosts(remaining, cost), true).at
  }

  /** The outer loop: drop the chosen index until at most `maxIndexes` remain. */
  function DropRun(remaining: seq<Index>, maxIndexes: nat, cost: set<Index> -> real): seq<Index>
    decreases |remaining|
  {
    if |remaining| <= maxIndexes then remaining
    else
      var rest := RemoveAt(remaining, DropChoice(remaining, cost));
      DropRun(rest, maxIndexes, cost)
  }

  /** The inner `for` loop: the running minimum over all single drops. */
  method IndexToDrop(remaining: seq<Index>, cost: set<Index> -> real) returns (at: nat)
    requires |remaining| > 0
    ensures at == DropChoice(remaining, cost)
  {
    var lowest: Option<real> := None;
    at := 0;
    ghost var costs := DropCosts(remaining, cost);
    var i := 0;
    while i < |remaining|
      invariant 0 <= i <= |remaining|
      invariant RunningMin(costs[..i], true) == if lowest.None? then NoBest else Best(at, lowest.value)
    {
      var c := cost(SetOf(remaining) - {remaining[i]});
      RunningMinStep(costs[..i], c, true);
      assert costs[..i + 1] == costs[..i] + [c];
      if Falsy(lowest) || c < lowest.value {
        lowest, at := Some(c), i;
      }
      i := i + 1;
    }
    assert costs[..i] == costs;
  }

  /**
   * `_calculate_best_indexes` on the potential indexes: a `max_indexes`
   * below 1 fails the assertion; otherwise indexes are dropped as
   * `DropRun` describes.
   */
  method DropHeuristicIndexes(potential: seq<Index>, maxIndexes: int, cost: set<Index> -> real)
    returns (r: Result<seq<Index>>)
    ensures maxIndexes < 1 ==> r == Err("AssertionError")
    ensures maxIndexes >= 1 ==> r == Ok(DropRun(potential, maxIndexes, cost))
  {
    if maxIndexes < 1 {
      return Err("AssertionError");
    }
    var remaining := potential;
    while |remaining| > maxIndexes
      invariant DropRun(remaining, maxIndexes, cost) == DropRun(potential, maxIndexes, cost)
      decreases |remaining|
    {
      var at := IndexToDrop(remaining, cost);
      remaining := RemoveAt(remaining, at);
    }
    r := Ok(remaining);
  }

  /** The whole algorithm body: the potential indexes of the workload, then the drop loop. */
  method CalculateBestIndexes(w: Workload, maxIndexes: int, cost: set<Index> -> real)
    returns (r: Result<seq<Index>>)
    ensures maxIndexes < 1 <==> r.Err?
    ensures r.Ok? ==> Distinct(r.value) && |r.value| <= maxIndexes
    ensures r.Ok? ==> forall ix :: ix in r.value ==> IsSingleColumn(ix) && Referenced(w.queries, ix.columns[0])
  {
    var potential := PotentialIndexes(w);
    r := DropHeuristicIndexes(potential, maxIndexes, cost);
    if r.Ok? {
      DropRunShape(potential, maxIndexes, cost);
      forall ix | ix in r.value ensures IsSingleColumn(ix) && Referenced(w.queries, ix.columns[0]) {
        assert ix in potential;
        assert ix == Index([ix.columns[0]]);
      }
    }
  }

  /**
   * Over repetition-free potential indexes the result repeats nothing,
   * keeps the input order, has exactly min(|potential|, maxIndexes)
   * elements, and is the input itself when nothing needs to be dropped.
   */
  lemma {:induction false} DropRunShape(remaining: seq<Index>, maxIndexes: nat, cost: set<Index> -> real)
    requires Distinct(remaining)
    ensures var r := DropRun(remaining, maxIndexes, cost);
      Distinct(r) && SubsequenceOf(r, remaining) && SetOf(r) <= SetOf(remaining) &&
      |r| == Min(|remaining|, maxIndexes) &&
      (|remaining| <= maxIndexes ==> r == remaining)
    decreases |remaining|
  {
    var r := DropRun(remaining, maxIndexes, cost);
    if |remaining| <= maxIndexes {
      SubsequenceOfSelf(remaining);
    } else {
      var at := DropChoice(remaining, cost);
      var rest := RemoveAt(remaining, at);
      RemoveAtShape(remaining, at);
      DropRunShape(rest, maxIndexes, cost);
      SubsequenceTransitive(r, rest, remaining);
    }
  }

  /**
   * Each round drops the index whose removal is cheapest, the first such
   * in iteration order, as long as no single drop costs exactly 0 (a cost
   * of 0 is falsy and is overwritten by the next one tried).
   */
  lemma DropChoiceIsCheapest(remaining: seq<Index>, cost: set<Index> -> real)
    requires |remaining| > 0
    requires forall k :: 0 <= k < |remaining| ==> cost(SetOf(remaining) - {remaining[k]}) != 0.0
    ensures var at := DropChoice(remaining, cost);
      (forall k :: 0 <= k < |remaining| ==>
        cost(SetOf(remaining) - {remaining[at]}) <= cost(SetOf(remaining) - {remaining[k]})) &&
      (forall k :: 0 <= k < at ==>
        cost(SetOf(remaining) - {remaining[at]}) < cost(SetOf(remaining) - {remaining[k]}))
  {
    RunningMinIsFirstMinimum(DropCosts(remaining, cost), true);
  }
}
