/**
 * selection/algorithms/microsoft/configuration_enumeration.py: the
 * object form of the AutoAdmin enumeration. The naive phase tries every
 * combination of 0 .. n candidates (the empty configuration included);
 * the greedy phase then appends, one at a time, the candidate not yet
 * chosen that lowers `lowest_cost` the most, while it lowers it strictly.
 *
 * `cost` is the cost evaluation's `calculate_cost` over the object's
 * workload, as a function of the index set.
 */
module ConfigurationEnumerations {
  import opened Common
  import opened Indexes
  import opened Search

  /** The greedy phase places no limit on which candidate may be appended. */
  predicate Unrestricted(current: seq<Index>, ix: Index) {
    true
  }

  /**
   * What `enumerate` computes on a fresh object. A negative naive limit
   * leaves `range(n + 1)` empty, so `list(None)` raises a TypeError.
   */
  function ConfigEnumeration(candidates: seq<Index>, maxIndexesNaive: int, maxIndexes: int,
                             cost: set<Index> -> real): Result<Outcome<Index>>
  {
    var n := Min(maxIndexesNaive, |candidates|);
    if n < 0 then Err("TypeError")
    else
      var naive := NaiveChoice(candidates, 0, n + 1, cost);
      Greedy(naive.indexes, naive.cost, Minus(candidates, naive.indexes), Some(Min(maxIndexes, |candidates|)),
             cost, Unrestricted)
  }

  class ConfigurationEnumeration {
    const maxIndexesNaive: int
    const maxIndexes: int
    const candidateIndexes: seq<Index>
    const cost: set<Index> -> real
    const candidateSelection: bool
    var indexes: Option<seq<Index>>
    var lowestCost: Option<real>

    /** `__init__`: nothing chosen and no cost yet. */
    constructor (candidateIndexes: seq<Index>, cost: set<Index> -> real, maxIndexesNaive: int, maxIndexes: int,
                 candidateSelection: bool)
      ensures this.candidateIndexes == candidateIndexes && this.cost == cost
      ensures this.maxIndexesNaive == maxIndexesNaive && this.maxIndexes == maxIndexes
      ensures this.candidateSelection == candidateSelection
      ensures indexes.None? && lowestCost.None?
    {
      this.candidateIndexes := candidateIndexes;
      this.cost := cost;
      this.maxIndexesNaive := maxIndexesNaive;
      this.maxIndexes := maxIndexes;
      this.candidateSelection := candidateSelection;
      indexes := None;
      lowestCost := None;
    }

    /**
     * `enumerate_naive`: every combination of sizes 0 .. n is costed and
     * the first one with the lowest cost under `not self.lowest_cost or
     * cost < self.lowest_cost` is kept; with n < 0 nothing is tried and
     * `list(None)` fails.
     */
    method EnumerateNaive(numberIndexesNaive: int) returns (err: Option<string>)
      requires lowestCost.None?
      modifies this
      ensures numberIndexesNaive < 0 ==> err == Some("TypeError") && indexes == old(indexes) && lowestCost.None?
      ensures numberIndexesNaive >= 0 ==>
        var naive := NaiveChoice(candidateIndexes, 0, numberIndexesNaive + 1, cost);
        err.None? && indexes == Some(naive.indexes) && lowestCost == naive.cost
    {
      if numberIndexesNaive < 0 {
        return Some("TypeError");
      }
      var b, trials := ScanCombinations(candidateIndexes, 0, numberIndexesNaive + 1, cost);
      CombinationRoundsEmpty(candidateIndexes, 0, numberIndexesNaive + 1);
      lowestCost := Some(b.cost);
      indexes := Some(trials[b.at]);
      err := None;
    }

    /**
     * `enumerate_greedy`: stop once `number_indexes` are chosen; otherwise
     * try every candidate not yet chosen and append the cheapest one if it
     * is strictly cheaper than `lowest_cost`, then recurse.
     */
    method EnumerateGreedy(numberIndexes: int)
      requires indexes.Some? && lowestCost.Some?
      modifies this
      ensures indexes.Some? && lowestCost.Some?
      ensures Greedy(old(indexes.value), old(lowestCost), Minus(candidateIndexes, old(indexes.value)),
                     Some(numberIndexes), cost, Unrestricted) == Ok(Outcome(indexes.value, lowestCost))
      decreases |Minus(candidateIndexes, indexes.value)|
    {
      var current := indexes.value;
      var indexSet := Minus(candidateIndexes, current);
      assert SetOf(current) * SetOf(indexSet) == {} by {
        forall x | x in SetOf(current) ensures x !in SetOf(indexSet) {
        }
      }
      if |current| >= numberIndexes {
        return;
      }
      if |indexSet| == 0 {
        return;
      }
      var b, chosen := ScanAdditions(current, indexSet, cost, Unrestricted);
      if b.Best? && b.cost < lowestCost.value {
        assert chosen in indexSet;
        MinusAppend(candidateIndexes, current, chosen);
        WithoutShorter(indexSet, chosen);
        indexes := Some(current + [chosen]);
        lowestCost := Some(b.cost);
        EnumerateGreedy(numberIndexes);
      }
    }

    /** `enumerate`: the naive phase up to min(max_indexes_naive, |candidates|), then greedy up to min(max_indexes, |candidates|). */
    method Enumerate() returns (r: Result<seq<Index>>)
      requires indexes.None? && lowestCost.None?
      modifies this
      ensures var e := ConfigEnumeration(candidateIndexes, maxIndexesNaive, maxIndexes, cost);
        (e.Err? ==> r == Err(e.error)) &&
        (e.Ok? ==> r == Ok(e.value.indexes) && indexes == Some(e.value.indexes) && lowestCost == e.value.cost)
    {
      var numberIndexesNaive := Min(maxIndexesNaive, |candidateIndexes|);
      var err := EnumerateNaive(numberIndexesNaive);
      if err.Some? {
        return Err(err.value);
      }
      NaiveChoiceShape(candidateIndexes, 0, numberIndexesNaive + 1, cost);
      var numberIndexes := Min(maxIndexes, |candidateIndexes|);
      EnumerateGreedy(numberIndexes);
      r := Ok(indexes.value);
    }
  }

  /** The empty configuration is among the naive trials. */
  lemma NaiveTriesEmpty(candidates: seq<Index>, n: nat)
    ensures [] in CombinationRounds(candidates, 0, n + 1)
  {
    assert CombinationRounds(candidates, 0, n + 1) == CombinationRounds(candidates, 0, n) + Combinations(candidates, n);
    if n == 0 {
      assert Combinations(candidates, 0) == [[]];
    } else {
      NaiveTriesEmpty(candidates, n - 1);
    }
  }

  /**
   * Since the empty configuration is tried, the naive phase is never more
   * expensive than no index at all (when no trial costs exactly 0).
   */
  lemma NaiveNoWorseThanNoIndex(candidates: seq<Index>, n: nat, cost: set<Index> -> real)
    requires forall u :: u in CombinationRounds(candidates, 0, n + 1) ==> cost(SetOf(u)) != 0.0
    ensures var naive := NaiveChoice(candidates, 0, n + 1, cost);
      naive.cost.Some? && naive.cost.value <= cost({})
  {
    NaiveTriesEmpty(candidates, n);
    NaiveChoiceIsCheapest(candidates, 0, n + 1, cost, []);
    assert SetOf<Index>([]) == {};
  }

  /** On repetition-free candidates `enumerate` fails exactly for a negative naive limit, with a TypeError. */
  lemma ConfigEnumerationFails(candidates: seq<Index>, maxIndexesNaive: int, maxIndexes: int, cost: set<Index> -> real)
    requires Distinct(candidates)
    ensures ConfigEnumeration(candidates, maxIndexesNaive, maxIndexes, cost).Err? <==> maxIndexesNaive < 0
    ensures maxIndexesNaive < 0 ==> ConfigEnumeration(candidates, maxIndexesNaive, maxIndexes, cost) == Err("TypeError")
  {
    var n := Min(maxIndexesNaive, |candidates|);
    if maxIndexesNaive >= 0 {
      var naive := NaiveChoice(candidates, 0, n + 1, cost);
      var bound := Min(maxIndexes, |candidates|);
      var r := Greedy(naive.indexes, naive.cost, Minus(candidates, naive.indexes), Some(bound), cost, Unrestricted);
      assert ConfigEnumeration(candidates, maxIndexesNaive, maxIndexes, cost) == r;
      assert naive.cost.Some? by {
        NaivePhaseShape(candidates, 0, n + 1, cost);
      }
      assert r.Ok? by {
        NaiveThenGreedy(candidates, 0, n + 1, bound, cost, Unrestricted);
      }
      assert maxIndexesNaive >= 0;
    } else {
      assert maxIndexesNaive < 0;
      assert ConfigEnumeration(candidates, maxIndexesNaive, maxIndexes, cost) == Err("TypeError");
    }
  }

  /**
   * With a naive limit of at least 0 the chosen indexes are repetition-free
   * candidates; more than the naive limit only when greedy added some,
   * and then within min(max_indexes, |candidates|); the cost is that of
   * the chosen set and never above the naive phase's.
   */
  lemma ConfigEnumerationShape(candidates: seq<Index>, maxIndexesNaive: int, maxIndexes: int, cost: set<Index> -> real)
    requires Distinct(candidates)
    requires maxIndexesNaive >= 0
    ensures var r := ConfigEnumeration(candidates, maxIndexesNaive, maxIndexes, cost);
      var n := Min(maxIndexesNaive, |candidates|);
      var naive := NaiveChoice(candidates, 0, n + 1, cost);
      r.Ok? && naive.cost.Some? && |naive.indexes| <= n &&
      Distinct(r.value.indexes) && SetOf(r.value.indexes) <= SetOf(candidates) &&
      (|r.value.indexes| > n ==> |r.value.indexes| <= Min(maxIndexes, |candidates|)) &&
      r.value.cost.Some? && r.value.cost.value == cost(SetOf(r.value.indexes)) &&
      r.value.cost.value <= naive.cost.value
  {
    var n := Min(maxIndexesNaive, |candidates|);
    var naive := NaiveChoice(candidates, 0, n + 1, cost);
    var bound := Min(maxIndexes, |candidates|);
    var r := Greedy(naive.indexes, naive.cost, Minus(candidates, naive.indexes), Some(bound), cost, Unrestricted);
    assert ConfigEnumeration(candidates, maxIndexesNaive, maxIndexes, cost) == r;
    NaivePhaseShape(candidates, 0, n + 1, cost);
    NaiveThenGreedy(candidates, 0, n + 1, bound, cost, Unrestricted);
  }
}
