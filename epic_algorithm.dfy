/**
 * selection/algorithms/epic_algorithm.py: a step-wise greedy search over
 * index combinations. Each step tries, for every single-column candidate
 * that the budget does not rule out, the current combination plus the
 * candidate and every combination in which one index is widened by the
 * candidate's column; `_evaluate_combination` keeps the trial of highest
 * benefit per byte. The search ends with the first step that improves on
 * nothing.
 *
 * `cost` is `_retrieve_cost`, that is `CostEvaluations.CostEvaluation.CalculateCost`
 * over the workload, read as a function of the index set; sizes come from the size oracle. The source loops `while True`;
 * here the number of steps is bounded by `fuel`.
 */
module EpicAlgorithm {
  import opened Common
  import opened Schema
  import opened Indexes
  import opened Workloads
  import opened SelectionAlgorithms
  import Ibm = IbmAlgorithm

  /** `DEFAULT_PARAMETERS`. */
  function DefaultParameters(): (p: Params)
    ensures p.Keys == {"cost_estimation", "budget", "number_steps", "pruning"}
  {
    map["cost_estimation" := TextParam("whatif"), "budget" := IntParam(10),
        "number_steps" := IntParam(20), "pruning" := BoolParam(true)]
  }

  /** `__init__`: the budget is given in MB and kept in bytes. */
  function BudgetOf(p: Params): Option<int> {
    var budget := Ibm.IntSetting(p, "budget");
    if budget.Some? then Some(budget.value * 1000000) else None
  }

  /** The budget in bytes is a million times the MB parameter; the default gives 10,000,000. */
  lemma BudgetInBytes(p: Params)
    ensures BudgetOf(p).Some? <==> "budget" in p && p["budget"].IntParam?
    ensures BudgetOf(p).Some? ==> BudgetOf(p).value == p["budget"].n * 1000000
    ensures BudgetOf(DefaultParameters()) == Some(10000000)
  {
    assert Ibm.IntSetting(DefaultParameters(), "budget") == Some(10);
  }

  /** `best`: the leading combination, its benefit per byte and its cost. */
  datatype Leader = Leader(combination: seq<Index>, ratio: real, cost: real)

  /** The workload cost under a combination. */
  function Cost(cost: set<Index> -> real, comb: seq<Index>): real {
    cost(SetOf(comb))
  }

  /** The estimated size of one index. */
  function SizeOf(sizeOf: Index -> nat, ix: Index): nat {
    sizeOf(ix)
  }

  /**
   * `_evaluate_combination`: the benefit over the leader's cost per byte of
   * the combination (a combination of size 0 divides by zero); the leader
   * is replaced when this ratio is strictly higher and the combination
   * fits the budget.
   */
  function EvaluateCombination(best: Leader, comb: seq<Index>, cost: set<Index> -> real, sizeOf: Index -> nat,
                               budget: int): Result<Leader>
  {
    var c := Cost(cost, comb);
    var benefit := best.cost - c;
    var size := TotalSize(sizeOf, comb);
    if size == 0 then Err("ZeroDivisionError")
    else
      var ratio := benefit / (size as real);
      if ratio > best.ratio && size <= budget then Ok(Leader(comb, ratio, c)) else Ok(best)
  }

  /** Every index of a combination has a column. */
  predicate AllValid(s: seq<Index>) {
    forall ix :: ix in s ==> Valid(ix)
  }

  /** `Index(index.columns + [candidate.columns[0]])`. */
  function Extended(ix: Index, candidate: Index): (r: Index)
    requires Valid(candidate)
    ensures Valid(r)
  {
    Index(ix.columns + [candidate.columns[0]])
  }

  /** `columns in [x.columns for x in index_combination]`. */
  predicate ColumnsTaken(comb: seq<Index>, columns: seq<Column>) {
    exists x :: x in comb && x.columns == columns
  }

  /** `comb` with the index at `i` replaced. */
  lemma ReplacedValid(comb: seq<Index>, i: nat, ix: Index)
    requires AllValid(comb) && i < |comb| && Valid(ix)
    ensures AllValid(comb[i := ix])
  {
    forall x | x in comb[i := ix] ensures Valid(x) {
      var k :| 0 <= k < |comb| && comb[i := ix][k] == x;
      if k != i {
        assert x == comb[k];
      }
    }
  }

  /**
   * The widening trials for a candidate over the first `n` positions: an
   * index the candidate is appendable to is widened, unless the widened
   * column list is already in the combination.
   */
  function ExtensionTrials(comb: seq<Index>, cand: Index, n: nat): seq<seq<Index>>
    requires n <= |comb|
  {
    if n == 0 then []
    else
      var rest := ExtensionTrials(comb, cand, n - 1);
      var ix := comb[n - 1];
      if Valid(ix) && Valid(cand) && AppendableBy(ix, cand) && !ColumnsTaken(comb, Extended(ix, cand).columns) then
        rest + [comb[n - 1 := Extended(ix, cand)]]
      else rest
  }

  /**
   * A candidate is skipped when the combination's size is known and
   * non-zero (`if combi_size:`) and adding the candidate's size exceeds the
   * budget.
   */
  predicate Skipped(combiSize: Option<int>, cand: Index, sizeOf: Index -> nat, budget: int) {
    combiSize.Some? && combiSize.value != 0 && combiSize.value + SizeOf(sizeOf, cand) > budget
  }

  /** The combinations tried for one candidate, in order: the addition, then the widenings. */
  function CandidateTrials(comb: seq<Index>, cand: Index, combiSize: Option<int>, sizeOf: Index -> nat,
                           budget: int): seq<seq<Index>>
  {
    if Skipped(combiSize, cand, sizeOf, budget) then []
    else (if cand !in comb then [comb + [cand]] else []) + ExtensionTrials(comb, cand, |comb|)
  }

  /** The combinations one step tries for the first `k` candidates, in order. */
  function StepTrials(comb: seq<Index>, cands: seq<Index>, combiSize: Option<int>, sizeOf: Index -> nat,
                      budget: int, k: nat): seq<seq<Index>>
    requires k <= |cands|
  {
    if k == 0 then []
    else StepTrials(comb, cands, combiSize, sizeOf, budget, k - 1) + CandidateTrials(comb, cands[k - 1], combiSize, sizeOf, budget)
  }

  /** Every trial is a combination of indexes with columns. */
  lemma {:induction false} ExtensionTrialsValid(comb: seq<Index>, cand: Index, n: nat)
    requires AllValid(comb) && Valid(cand) && n <= |comb|
    ensures forall t :: t in ExtensionTrials(comb, cand, n) ==> AllValid(t)
  {
    if n > 0 {
      ExtensionTrialsValid(comb, cand, n - 1);
      if AppendableBy(comb[n - 1], cand) && !ColumnsTaken(comb, Extended(comb[n - 1], cand).columns) {
        ReplacedValid(comb, n - 1, Extended(comb[n - 1], cand));
      }
    }
  }

  lemma CandidateTrialsValid(comb: seq<Index>, cand: Index, combiSize: Option<int>, sizeOf: Index -> nat, budget: int)
    requires AllValid(comb) && Valid(cand)
    ensures forall t :: t in CandidateTrials(comb, cand, combiSize, sizeOf, budget) ==> AllValid(t)
  {
    ExtensionTrialsValid(comb, cand, |comb|);
    if cand !in comb {
      assert AllValid(comb + [cand]);
    }
  }

  lemma {:induction false} StepTrialsValid(comb: seq<Index>, cands: seq<Index>, combiSize: Option<int>,
                                           sizeOf: Index -> nat, budget: int, k: nat)
    requires AllValid(comb) && AllValid(cands) && k <= |cands|
    ensures forall t :: t in StepTrials(comb, cands, combiSize, sizeOf, budget, k) ==> AllValid(t)
  {
    if k > 0 {
      StepTrialsValid(comb, cands, combiSize, sizeOf, budget, k - 1);
      var before := StepTrials(comb, cands, combiSize, sizeOf, budget, k - 1);
      var last := CandidateTrials(comb, cands[k - 1], combiSize, sizeOf, budget);
      assert StepTrials(comb, cands, combiSize, sizeOf, budget, k) == before + last;
      assert Valid(cands[k - 1]);
      CandidateTrialsValid(comb, cands[k - 1], combiSize, sizeOf, budget);
      forall t | t in before + last ensures AllValid(t) {
        if t !in before {
          assert t in last;
        }
      }
    }
  }

  /** `_evaluate_combination` on each trial in turn; a ZeroDivisionError ends the step. */
  function EvaluateAll(best: Leader, trials: seq<seq<Index>>, cost: set<Index> -> real, sizeOf: Index -> nat,
                       budget: int): Result<Leader>
  {
    if |trials| == 0 then Ok(best)
    else
      var prev := EvaluateAll(best, trials[..|trials| - 1], cost, sizeOf, budget);
      if prev.Err? then prev
      else EvaluateCombination(prev.value, trials[|trials| - 1], cost, sizeOf, budget)
  }

  /** The leader after the trials is the one before them or one of the trials. */
  lemma {:induction false} EvaluateAllChoice(best: Leader, trials: seq<seq<Index>>, cost: set<Index> -> real,
                                             sizeOf: Index -> nat, budget: int)
    ensures var r := EvaluateAll(best, trials, cost, sizeOf, budget);
      r.Ok? ==> r.value == best || r.value.combination in trials
    decreases |trials|
  {
    if |trials| > 0 {
      var init := trials[..|trials| - 1];
      EvaluateAllChoice(best, init, cost, sizeOf, budget);
      var prev := EvaluateAll(best, init, cost, sizeOf, budget);
      if prev.Ok? && prev.value != best {
        assert prev.value.combination in trials by {
          var k :| 0 <= k < |init| && init[k] == prev.value.combination;
          assert trials[k] == init[k];
        }
      }
    }
  }

  /** One step from `comb`, whose cost is `bestCost`: the leader after all trials, starting at ratio 0. */
  function Step(comb: seq<Index>, combiSize: Option<int>, bestCost: real, cands: seq<Index>,
                cost: set<Index> -> real, sizeOf: Index -> nat, budget: int): Result<Leader>
  {
    EvaluateAll(Leader(comb, 0.0, bestCost), StepTrials(comb, cands, combiSize, sizeOf, budget, |cands|), cost, sizeOf, budget)
  }

  /** A step from indexes with columns ends at indexes with columns. */
  lemma StepValid(comb: seq<Index>, combiSize: Option<int>, bestCost: real, cands: seq<Index>,
                  cost: set<Index> -> real, sizeOf: Index -> nat, budget: int)
    requires AllValid(comb) && AllValid(cands)
    ensures var l := Step(comb, combiSize, bestCost, cands, cost, sizeOf, budget);
      l.Ok? ==> AllValid(l.value.combination)
  {
    StepTrialsValid(comb, cands, combiSize, sizeOf, budget, |cands|);
    EvaluateAllChoice(Leader(comb, 0.0, bestCost), StepTrials(comb, cands, combiSize, sizeOf, budget, |cands|),
                      cost, sizeOf, budget);
  }

  /**
   * The step loop from `comb`: a step that leaves the ratio at 0 ends it
   * with `comb`; otherwise the leader becomes the combination, its size
   * the `combi_size` of the next step. `fuel` bounds the number of steps.
   */
  function EpicFrom(comb: seq<Index>, combiSize: Option<int>, bestCost: real, cands: seq<Index>,
                    cost: set<Index> -> real, sizeOf: Index -> nat, budget: int, fuel: nat): Result<seq<Index>>
    decreases fuel, 1
  {
    if fuel == 0 then Err("StepLimit")
    else AfterStep(comb, Step(comb, combiSize, bestCost, cands, cost, sizeOf, budget), cands, cost, sizeOf, budget, fuel - 1)
  }

  /** What the step loop does with the leader `l` of a step from `comb`, with `next` steps left. */
  function AfterStep(comb: seq<Index>, l: Result<Leader>, cands: seq<Index>, cost: set<Index> -> real,
                     sizeOf: Index -> nat, budget: int, next: nat): Result<seq<Index>>
    decreases next + 1, 0
  {
    if l.Err? then Err(l.error)
    else if l.value.ratio == 0.0 then Ok(comb)
    else EpicFrom(l.value.combination, Some(TotalSize(sizeOf, l.value.combination)), l.value.cost, cands,
                  cost, sizeOf, budget, next)
  }

  /** `_calculate_best_indexes` over given candidates: from no index, at the cost of no index. */
  function Epic(cands: seq<Index>, cost: set<Index> -> real, sizeOf: Index -> nat, budget: int, fuel: nat): Result<seq<Index>>
  {
    EpicFrom([], None, Cost(cost, []), cands, cost, sizeOf, budget, fuel)
  }

  // ------------------------------------------------------------ the loops

  /** `a` is a prefix of `b`. */
  ghost predicate IsPrefix<T>(a: seq<T>, b: seq<T>) {
    |a| <= |b| && b[..|a|] == a
  }

  /** One more trial. */
  lemma EvaluateAllAppend(best: Leader, trials: seq<seq<Index>>, t: seq<Index>, cost: set<Index> -> real,
                          sizeOf: Index -> nat, budget: int)
    ensures var prev := EvaluateAll(best, trials, cost, sizeOf, budget);
      EvaluateAll(best, trials + [t], cost, sizeOf, budget) ==
        if prev.Err? then prev else EvaluateCombination(prev.value, t, cost, sizeOf, budget)
  {
    assert (trials + [t])[..|trials|] == trials;
  }

  /** A failed trial ends the step with its error. */
  lemma {:induction false} ErrPrefix(best: Leader, a: seq<seq<Index>>, b: seq<seq<Index>>, cost: set<Index> -> real,
                                     sizeOf: Index -> nat, budget: int)
    requires IsPrefix(a, b) && EvaluateAll(best, a, cost, sizeOf, budget).Err?
    ensures EvaluateAll(best, b, cost, sizeOf, budget) == EvaluateAll(best, a, cost, sizeOf, budget)
    decreases |b|
  {
    if |b| > |a| {
      var init := b[..|b| - 1];
      assert init[..|a|] == a;
      ErrPrefix(best, a, init, cost, sizeOf, budget);
    } else {
      assert a == b;
    }
  }

  lemma PrefixAppend<T>(a: seq<T>, x: seq<T>)
    ensures IsPrefix(a, a + x)
  {
    assert (a + x)[..|a|] == a;
  }

  lemma PrefixTransitive<T>(a: seq<T>, b: seq<T>, c: seq<T>)
    requires IsPrefix(a, b) && IsPrefix(b, c)
    ensures IsPrefix(a, c)
  {
    assert c[..|a|] == c[..|b|][..|a|];
  }

  lemma {:induction false} ExtensionTrialsPrefix(comb: seq<Index>, cand: Index, i: nat, n: nat)
    requires i <= n <= |comb|
    ensures IsPrefix(ExtensionTrials(comb, cand, i), ExtensionTrials(comb, cand, n))
    decreases n
  {
    var a := ExtensionTrials(comb, cand, i);
    if i < n {
      ExtensionTrialsPrefix(comb, cand, i, n - 1);
      var b := ExtensionTrials(comb, cand, n - 1);
      var c := ExtensionTrials(comb, cand, n);
      assert c[..|b|] == b;
      PrefixTransitive(a, b, c);
    } else {
      assert a[..|a|] == a;
    }
  }

  lemma {:induction false} StepTrialsPrefix(comb: seq<Index>, cands: seq<Index>, combiSize: Option<int>,
                                            sizeOf: Index -> nat, budget: int, j: nat, n: nat)
    requires j <= n <= |cands|
    ensures IsPrefix(StepTrials(comb, cands, combiSize, sizeOf, budget, j), StepTrials(comb, cands, combiSize, sizeOf, budget, n))
    decreases n
  {
    var a := StepTrials(comb, cands, combiSize, sizeOf, budget, j);
    if j < n {
      StepTrialsPrefix(comb, cands, combiSize, sizeOf, budget, j, n - 1);
      var b := StepTrials(comb, cands, combiSize, sizeOf, budget, n - 1);
      var ct := CandidateTrials(comb, cands[n - 1], combiSize, sizeOf, budget);
      assert StepTrials(comb, cands, combiSize, sizeOf, budget, n) == b + ct;
      PrefixAppend(b, ct);
      PrefixTransitive(a, b, b + ct);
    } else {
      assert a[..|a|] == a;
    }
  }

  /** Evaluating two runs of trials one after the other. */
  lemma {:induction false} EvaluateAllConcat(best: Leader, a: seq<seq<Index>>, b: seq<seq<Index>>,
                                             cost: set<Index> -> real, sizeOf: Index -> nat, budget: int)
    ensures var prev := EvaluateAll(best, a, cost, sizeOf, budget);
      EvaluateAll(best, a + b, cost, sizeOf, budget) ==
        if prev.Err? then prev else EvaluateAll(prev.value, b, cost, sizeOf, budget)
    decreases |b|
  {
    if |b| == 0 {
      assert a + b == a;
    } else {
      var init := b[..|b| - 1];
      EvaluateAllConcat(best, a, init, cost, sizeOf, budget);
      assert (a + b)[..|a + b| - 1] == a + init;
      assert (a + b)[|a + b| - 1] == b[|b| - 1];
    }
  }

  /** One more position of the widening loop: a widening it tries is evaluated, and its failure ends the loop. */
  lemma WideningNext(comb: seq<Index>, candidate: Index, best: Leader, cost: set<Index> -> real,
                     sizeOf: Index -> nat, budget: int, i: nat, leader: Leader)
    requires i < |comb| && Valid(comb[i]) && Valid(candidate)
    requires EvaluateAll(best, ExtensionTrials(comb, candidate, i), cost, sizeOf, budget) == Ok(leader)
    ensures var t := ExtensionTrials(comb, candidate, i + 1);
      var w := Extended(comb[i], candidate);
      if AppendableBy(comb[i], candidate) && !ColumnsTaken(comb, w.columns) then
        var e := EvaluateCombination(leader, comb[i := w], cost, sizeOf, budget);
        EvaluateAll(best, t, cost, sizeOf, budget) == e &&
        (e.Err? ==> EvaluateAll(best, ExtensionTrials(comb, candidate, |comb|), cost, sizeOf, budget) == e)
      else EvaluateAll(best, t, cost, sizeOf, budget) == Ok(leader)
  {
    var before := ExtensionTrials(comb, candidate, i);
    var t := ExtensionTrials(comb, candidate, i + 1);
    var w := Extended(comb[i], candidate);
    if AppendableBy(comb[i], candidate) && !ColumnsTaken(comb, w.columns) {
      assert t == before + [comb[i := w]];
      EvaluateAllAppend(best, before, comb[i := w], cost, sizeOf, budget);
      if EvaluateAll(best, t, cost, sizeOf, budget).Err? {
        ExtensionTrialsPrefix(comb, candidate, i + 1, |comb|);
        ErrPrefix(best, t, ExtensionTrials(comb, candidate, |comb|), cost, sizeOf, budget);
      }
    }
  }

  /** The widenings for one candidate, position by position. */
  method EvaluateWidenings(comb: seq<Index>, candidate: Index, best: Leader, cost: set<Index> -> real,
                           sizeOf: Index -> nat, budget: int)
    returns (r: Result<Leader>)
    requires AllValid(comb) && Valid(candidate)
    ensures r == EvaluateAll(best, ExtensionTrials(comb, candidate, |comb|), cost, sizeOf, budget)
  {
    var leader := best;
    var i := 0;
    while i < |comb|
      invariant 0 <= i <= |comb|
      invariant EvaluateAll(best, ExtensionTrials(comb, candidate, i), cost, sizeOf, budget) == Ok(leader)
    {
      var index := comb[i];
      assert index in comb;
      WideningNext(comb, candidate, best, cost, sizeOf, budget, i, leader);
      if AppendableBy(index, candidate) {
        var columns := index.columns + [candidate.columns[0]];
        var newIndex := Index(columns);
        if !ColumnsTaken(comb, newIndex.columns) {
          var newCombination := comb[i := newIndex];
          var e := EvaluateCombination(leader, newCombination, cost, sizeOf, budget);
          if e.Err? {
            return e;
          }
          leader := e.value;
        }
      }
      i := i + 1;
    }
    r := Ok(leader);
  }

  /** One candidate's turn: the addition when it is not in the combination, then the widenings. */
  method EvaluateCandidate(comb: seq<Index>, candidate: Index, combiSize: Option<int>, best: Leader,
                           cost: set<Index> -> real, sizeOf: Index -> nat, budget: int)
    returns (r: Result<Leader>)
    requires AllValid(comb) && Valid(candidate) && !Skipped(combiSize, candidate, sizeOf, budget)
    ensures r == EvaluateAll(best, CandidateTrials(comb, candidate, combiSize, sizeOf, budget), cost, sizeOf, budget)
  {
    ghost var widenings := ExtensionTrials(comb, candidate, |comb|);
    var leader := best;
    if candidate !in comb {
      var e := EvaluateCombination(best, comb + [candidate], cost, sizeOf, budget);
      EvaluateAllAppend(best, [], comb + [candidate], cost, sizeOf, budget);
      assert [] + [comb + [candidate]] == [comb + [candidate]];
      EvaluateAllConcat(best, [comb + [candidate]], widenings, cost, sizeOf, budget);
      if e.Err? {
        return e;
      }
      leader := e.value;
    } else {
      assert [] + widenings == widenings;
    }
    r := EvaluateWidenings(comb, candidate, leader, cost, sizeOf, budget);
  }

  /** The step after one more candidate's turn; a failed turn is the step's outcome. */
  lemma StepAdvance(comb: seq<Index>, cands: seq<Index>, combiSize: Option<int>, sizeOf: Index -> nat, budget: int,
                    cost: set<Index> -> real, start: Leader, j: nat, best: Leader, e: Result<Leader>)
    requires j < |cands|
    requires EvaluateAll(start, StepTrials(comb, cands, combiSize, sizeOf, budget, j), cost, sizeOf, budget) == Ok(best)
    requires e == EvaluateAll(best, CandidateTrials(comb, cands[j], combiSize, sizeOf, budget), cost, sizeOf, budget)
    ensures EvaluateAll(start, StepTrials(comb, cands, combiSize, sizeOf, budget, j + 1), cost, sizeOf, budget) == e
    ensures e.Err? ==> EvaluateAll(start, StepTrials(comb, cands, combiSize, sizeOf, budget, |cands|), cost, sizeOf, budget) == e
  {
    var before := StepTrials(comb, cands, combiSize, sizeOf, budget, j);
    var turn := CandidateTrials(comb, cands[j], combiSize, sizeOf, budget);
    assert StepTrials(comb, cands, combiSize, sizeOf, budget, j + 1) == before + turn;
    EvaluateAllConcat(start, before, turn, cost, sizeOf, budget);
    if e.Err? {
      StepTrialsPrefix(comb, cands, combiSize, sizeOf, budget, j + 1, |cands|);
      ErrPrefix(start, before + turn, StepTrials(comb, cands, combiSize, sizeOf, budget, |cands|), cost, sizeOf, budget);
    }
  }

  /**
   * One pass of the candidate loop of `_calculate_best_indexes`: for each
   * candidate the budget does not rule out, the addition and then every
   * widening is handed to `_evaluate_combination`.
   */
  method EvaluateStep(comb: seq<Index>, combiSize: Option<int>, bestCost: real, cands: seq<Index>,
                      cost: set<Index> -> real, sizeOf: Index -> nat, budget: int)
    returns (r: Result<Leader>)
    requires AllValid(comb) && AllValid(cands)
    ensures r == Step(comb, combiSize, bestCost, cands, cost, sizeOf, budget)
  {
    var best := Leader(comb, 0.0, bestCost);
    ghost var start := best;
    assert Step(comb, combiSize, bestCost, cands, cost, sizeOf, budget) ==
      EvaluateAll(start, StepTrials(comb, cands, combiSize, sizeOf, budget, |cands|), cost, sizeOf, budget);
    var j := 0;
    while j < |cands|
      invariant 0 <= j <= |cands|
      invariant EvaluateAll(start, StepTrials(comb, cands, combiSize, sizeOf, budget, j), cost, sizeOf, budget) == Ok(best)
    {
      var e := EvaluateTurn(comb, cands, j, combiSize, best, cost, sizeOf, budget);
      StepAdvance(comb, cands, combiSize, sizeOf, budget, cost, start, j, best, e);
      if e.Err? {
        return e;
      }
      best := e.value;
      j := j + 1;
    }
    r := Ok(best);
  }

  /** The turn of one candidate in the candidate loop: nothing when the budget rules it out. */
  method EvaluateTurn(comb: seq<Index>, cands: seq<Index>, j: nat, combiSize: Option<int>, best: Leader,
                      cost: set<Index> -> real, sizeOf: Index -> nat, budget: int)
    returns (e: Result<Leader>)
    requires AllValid(comb) && AllValid(cands) && j < |cands|
    ensures e == EvaluateAll(best, CandidateTrials(comb, cands[j], combiSize, sizeOf, budget), cost, sizeOf, budget)
  {
    var candidate := cands[j];
    if Skipped(combiSize, candidate, sizeOf, budget) {
      assert CandidateTrials(comb, candidate, combiSize, sizeOf, budget) == [];
      e := Ok(best);
    } else {
      assert candidate in cands;
      e := EvaluateCandidate(comb, candidate, combiSize, best, cost, sizeOf, budget);
    }
  }

  /** With steps left, the loop takes a step and goes on from its leader. */
  lemma EpicFromStep(comb: seq<Index>, combiSize: Option<int>, bestCost: real, cands: seq<Index>,
                     cost: set<Index> -> real, sizeOf: Index -> nat, budget: int, fuel: nat, l: Result<Leader>)
    requires fuel > 0 && l == Step(comb, combiSize, bestCost, cands, cost, sizeOf, budget)
    ensures EpicFrom(comb, combiSize, bestCost, cands, cost, sizeOf, budget, fuel) ==
      AfterStep(comb, l, cands, cost, sizeOf, budget, fuel - 1)
  {
  }

  /** One step of the loop from `fuel` steps left to `next`. */
  lemma EpicFromUnfold(comb: seq<Index>, combiSize: Option<int>, bestCost: real, cands: seq<Index>,
                       cost: set<Index> -> real, sizeOf: Index -> nat, budget: int, fuel: nat, next: nat,
                       l: Result<Leader>)
    requires fuel == next + 1
    requires l == Step(comb, combiSize, bestCost, cands, cost, sizeOf, budget)
    ensures l.Err? ==> EpicFrom(comb, combiSize, bestCost, cands, cost, sizeOf, budget, fuel) == Err(l.error)
    ensures l.Ok? && l.value.ratio == 0.0 ==> EpicFrom(comb, combiSize, bestCost, cands, cost, sizeOf, budget, fuel) == Ok(comb)
    ensures l.Ok? && l.value.ratio != 0.0 ==>
      EpicFrom(comb, combiSize, bestCost, cands, cost, sizeOf, budget, fuel) ==
      EpicFrom(l.value.combination, Some(TotalSize(sizeOf, l.value.combination)), l.value.cost, cands, cost, sizeOf, budget, next)
  {
    EpicFromStep(comb, combiSize, bestCost, cands, cost, sizeOf, budget, fuel, l);
    var r := EpicFrom(comb, combiSize, bestCost, cands, cost, sizeOf, budget, fuel);
    assert r == AfterStep(comb, l, cands, cost, sizeOf, budget, next);
    AfterStepCases(comb, l, cands, cost, sizeOf, budget, next);
  }

  /** What the loop does with a step's leader: stop with its error, stop where it is, or go on from it. */
  lemma AfterStepCases(comb: seq<Index>, l: Result<Leader>, cands: seq<Index>, cost: set<Index> -> real,
                       sizeOf: Index -> nat, budget: int, next: nat)
    ensures l.Err? ==> AfterStep(comb, l, cands, cost, sizeOf, budget, next) == Err(l.error)
    ensures l.Ok? && l.value.ratio == 0.0 ==> AfterStep(comb, l, cands, cost, sizeOf, budget, next) == Ok(comb)
    ensures l.Ok? && l.value.ratio != 0.0 ==>
      AfterStep(comb, l, cands, cost, sizeOf, budget, next) ==
      EpicFrom(l.value.combination, Some(TotalSize(sizeOf, l.value.combination)), l.value.cost, cands, cost, sizeOf, budget, next)
  {
  }

  /** A step as the step loop sees it: what it leaves of the search. */
  method TakeStep(comb: seq<Index>, combiSize: Option<int>, bestCost: real, cands: seq<Index>,
                  cost: set<Index> -> real, sizeOf: Index -> nat, budget: int, ghost fuel: nat, ghost next: nat)
    returns (l: Result<Leader>)
    requires AllValid(comb) && AllValid(cands) && fuel == next + 1
    ensures l.Err? ==> EpicFrom(comb, combiSize, bestCost, cands, cost, sizeOf, budget, fuel) == Err(l.error)
    ensures l.Ok? && l.value.ratio == 0.0 ==> EpicFrom(comb, combiSize, bestCost, cands, cost, sizeOf, budget, fuel) == Ok(comb)
    ensures l.Ok? ==> AllValid(l.value.combination)
    ensures l.Ok? && l.value.ratio != 0.0 ==>
      EpicFrom(comb, combiSize, bestCost, cands, cost, sizeOf, budget, fuel) ==
      EpicFrom(l.value.combination, Some(TotalSize(sizeOf, l.value.combination)), l.value.cost, cands, cost, sizeOf, budget, next)
  {
    l := EvaluateStep(comb, combiSize, bestCost, cands, cost, sizeOf, budget);
    EpicFromUnfold(comb, combiSize, bestCost, cands, cost, sizeOf, budget, fuel, next, l);
    StepValid(comb, combiSize, bestCost, cands, cost, sizeOf, budget);
  }

  /**
   * `_calculate_best_indexes` over given candidates: steps until one
   * improves on nothing; each accepted step makes the leader's combination
   * current, resets the ratio to 0 and records the combination's size.
   */
  method Search(cands: seq<Index>, cost: set<Index> -> real, sizeOf: Index -> nat, budget: int, fuel: nat)
    returns (r: Result<seq<Index>>)
    requires AllValid(cands)
    ensures r == Epic(cands, cost, sizeOf, budget, fuel)
  {
    var comb: seq<Index> := [];
    var bestCost := Cost(cost, comb);
    var combiSize: Option<int> := None;
    var step: nat := 0;
    ghost var outcome := Epic(cands, cost, sizeOf, budget, fuel);
    ghost var left: nat := fuel;
    while step < fuel
      invariant step <= fuel && left == fuel - step
      invariant AllValid(comb)
      invariant outcome == EpicFrom(comb, combiSize, bestCost, cands, cost, sizeOf, budget, left)
      decreases fuel - step
    {
      ghost var next: nat := left - 1;
      var best := TakeStep(comb, combiSize, bestCost, cands, cost, sizeOf, budget, left, next);
      if best.Err? {
        return Err(best.error);
      }
      if best.value.ratio == 0.0 {
        return Ok(comb);
      }
      comb := best.value.combination;
      bestCost := best.value.cost;
      step := step + 1;
      combiSize := Some(TotalSize(sizeOf, comb));
      left := next;
    }
    r := Err("StepLimit");
  }

  /** `_calculate_best_indexes`: the search over the single-column potential indexes of the workload. */
  method CalculateBestIndexes(w: Workload, cost: set<Index> -> real, sizeOf: Index -> nat, budget: int, fuel: nat)
    returns (candidates: seq<Index>, r: Result<seq<Index>>)
    ensures Distinct(candidates) && AllValid(candidates)
    ensures forall ix :: ix in candidates ==> IsSingleColumn(ix)
    ensures forall c :: Index([c]) in candidates <==> Referenced(w.queries, c)
    ensures r == Epic(candidates, cost, sizeOf, budget, fuel)
  {
    candidates := PotentialIndexes(w);
    r := Search(candidates, cost, sizeOf, budget, fuel);
  }

  // ------------------------------------------------------------ properties

  /** Comparing a benefit per byte with a bound is comparing the benefit with the bound times the size. */
  lemma RatioCompare(benefit: real, size: nat, bound: real)
    requires size > 0
    ensures benefit / (size as real) > bound <==> benefit > bound * (size as real)
    ensures benefit / (size as real) * (size as real) == benefit
  {
    var q := benefit / (size as real);
    assert q * (size as real) == benefit;
    if q > bound {
      assert q * (size as real) > bound * (size as real);
    }
    if benefit > bound * (size as real) {
      assert (q - bound) * (size as real) > 0.0;
    }
  }

  /**
   * `_evaluate_combination`: it fails exactly on a combination of size 0;
   * otherwise the leader is replaced by the combination, at its own cost,
   * exactly when the combination fits the budget and its benefit over the
   * leader's cost is more than the leader's ratio per byte, and the new
   * ratio is that benefit per byte.
   */
  lemma EvaluateCombinationMeaning(best: Leader, comb: seq<Index>, cost: set<Index> -> real, sizeOf: Index -> nat,
                                   budget: int)
    ensures var r := EvaluateCombination(best, comb, cost, sizeOf, budget);
      var size := TotalSize(sizeOf, comb);
      var benefit := best.cost - Cost(cost, comb);
      (r.Err? <==> size == 0) && (r.Err? ==> r.error == "ZeroDivisionError") &&
      (size > 0 && size <= budget && benefit > best.ratio * (size as real) ==>
        r.Ok? && r.value.combination == comb && r.value.cost == Cost(cost, comb) &&
        r.value.ratio > best.ratio && r.value.ratio * (size as real) == benefit) &&
      (size > 0 && !(size <= budget && benefit > best.ratio * (size as real)) ==> r == Ok(best))
  {
    var size := TotalSize(sizeOf, comb);
    if size > 0 {
      RatioCompare(best.cost - Cost(cost, comb), size, best.ratio);
    }
  }

  /** A trial lowers the cost `base` while fitting the budget. */
  predicate Improves(base: real, t: seq<Index>, cost: set<Index> -> real, sizeOf: Index -> nat, budget: int) {
    0 < TotalSize(sizeOf, t) <= budget && Cost(cost, t) < base
  }

  /** The trials fail exactly when one of them has size 0, and then with a ZeroDivisionError. */
  lemma {:induction false} EvaluateAllFails(best: Leader, trials: seq<seq<Index>>, cost: set<Index> -> real,
                                            sizeOf: Index -> nat, budget: int)
    ensures var r := EvaluateAll(best, trials, cost, sizeOf, budget);
      (r.Err? <==> exists k :: 0 <= k < |trials| && TotalSize(sizeOf, trials[k]) == 0) &&
      (r.Err? ==> r.error == "ZeroDivisionError")
    decreases |trials|
  {
    if |trials| > 0 {
      var n := |trials| - 1;
      var init := trials[..n];
      EvaluateAllFails(best, init, cost, sizeOf, budget);
      var prev := EvaluateAll(best, init, cost, sizeOf, budget);
      if prev.Ok? {
        EvaluateCombinationMeaning(prev.value, trials[n], cost, sizeOf, budget);
      }
      if exists k :: 0 <= k < |trials| && TotalSize(sizeOf, trials[k]) == 0 {
        var k :| 0 <= k < |trials| && TotalSize(sizeOf, trials[k]) == 0;
        if k < n {
          assert init[k] == trials[k];
        }
      }
      if prev.Err? {
        var k :| 0 <= k < n && TotalSize(sizeOf, init[k]) == 0;
        assert init[k] == trials[k];
      }
    }
  }

  /**
   * A step that succeeds, started at ratio 0 from the cost of the current
   * combination: its ratio is never negative and its cost never above the
   * start; the ratio stays 0 exactly when no trial fits the budget and
   * lowers the cost, and then the leader is unchanged; a positive ratio
   * belongs to a tried combination that fits the budget, at its own cost,
   * below the starting cost. Benefits are measured against the leader's
   * cost at the time of each trial, as `_evaluate_combination` does.
   */
  lemma {:induction false} EvaluateAllFromZero(start: Leader, trials: seq<seq<Index>>, cost: set<Index> -> real,
                                               sizeOf: Index -> nat, budget: int)
    requires start.ratio == 0.0
    ensures var r := EvaluateAll(start, trials, cost, sizeOf, budget);
      r.Ok? ==>
        r.value.ratio >= 0.0 && r.value.cost <= start.cost &&
        (r.value.ratio == 0.0 <==> forall k :: 0 <= k < |trials| ==> !Improves(start.cost, trials[k], cost, sizeOf, budget)) &&
        (r.value.ratio == 0.0 ==> r.value == start) &&
        (r.value.ratio > 0.0 ==>
          r.value.combination in trials && 0 < TotalSize(sizeOf, r.value.combination) <= budget &&
          r.value.cost == Cost(cost, r.value.combination) && r.value.cost < start.cost)
  {
    var r := EvaluateAll(start, trials, cost, sizeOf, budget);
    if r.Ok? {
      FromZeroAll(start, trials, cost, sizeOf, budget);
      assert FromZero(start, trials, cost, sizeOf, budget, r.value);
    }
  }

  /** The postcondition of `EvaluateAllFromZero` for a leader `v` after the trials. */
  ghost predicate FromZero(start: Leader, trials: seq<seq<Index>>, cost: set<Index> -> real, sizeOf: Index -> nat,
                           budget: int, v: Leader)
  {
    v.ratio >= 0.0 && v.cost <= start.cost &&
    (v.ratio == 0.0 <==> forall k :: 0 <= k < |trials| ==> !Improves(start.cost, trials[k], cost, sizeOf, budget)) &&
    (v.ratio == 0.0 ==> v == start) &&
    (v.ratio > 0.0 ==>
      v.combination in trials && 0 < TotalSize(sizeOf, v.combination) <= budget &&
      v.cost == Cost(cost, v.combination) && v.cost < start.cost)
  }

  lemma {:induction false} FromZeroAll(start: Leader, trials: seq<seq<Index>>, cost: set<Index> -> real,
                                       sizeOf: Index -> nat, budget: int)
    requires start.ratio == 0.0
    ensures var r := EvaluateAll(start, trials, cost, sizeOf, budget);
      r.Ok? ==> FromZero(start, trials, cost, sizeOf, budget, r.value)
    decreases |trials|
  {
    var r := EvaluateAll(start, trials, cost, sizeOf, budget);
    if |trials| > 0 {
      var n := |trials| - 1;
      var init, t := trials[..n], trials[n];
      FromZeroAll(start, init, cost, sizeOf, budget);
      var prev := EvaluateAll(start, init, cost, sizeOf, budget);
      if prev.Ok? && r.Ok? {
        assert r == EvaluateCombination(prev.value, t, cost, sizeOf, budget);
        assert trials == init + [t];
        FromZeroStep(start, init, t, trials, cost, sizeOf, budget, prev.value, r.value);
      }
    }
  }

  /** One more trial keeps `FromZero`. */
  lemma FromZeroStep(start: Leader, init: seq<seq<Index>>, t: seq<Index>, trials: seq<seq<Index>>,
                     cost: set<Index> -> real, sizeOf: Index -> nat, budget: int, p: Leader, v: Leader)
    requires start.ratio == 0.0 && trials == init + [t]
    requires FromZero(start, init, cost, sizeOf, budget, p)
    requires EvaluateCombination(p, t, cost, sizeOf, budget) == Ok(v)
    ensures FromZero(start, trials, cost, sizeOf, budget, v)
  {
    var n := |init|;
    EvaluateCombinationMeaning(p, t, cost, sizeOf, budget);
    var size := TotalSize(sizeOf, t);
    var benefit := p.cost - Cost(cost, t);
    assert trials[n] == t;
    if size <= budget && benefit > p.ratio * (size as real) {
      assert p.ratio * (size as real) >= 0.0;
      assert Improves(start.cost, t, cost, sizeOf, budget);
    } else if p.ratio == 0.0 {
      forall k | 0 <= k < |trials| ensures !Improves(start.cost, trials[k], cost, sizeOf, budget) {
        if k < n {
          assert trials[k] == init[k];
        }
      }
    } else {
      var k :| 0 <= k < n && Improves(start.cost, init[k], cost, sizeOf, budget);
      assert trials[k] == init[k];
    }
  }


  /** A widening of `comb` for `cand`: one index with the candidate's column appended, unless that column list is taken. */
  ghost predicate Widening(comb: seq<Index>, cand: Index, t: seq<Index>, n: nat) {
    exists i :: 0 <= i < n && i < |comb| && Valid(comb[i]) && Valid(cand) && AppendableBy(comb[i], cand) &&
      !ColumnsTaken(comb, Add(comb[i], cand).columns) && t == comb[i := Add(comb[i], cand)]
  }

  /** The widening trials are exactly the widenings, position by position. */
  lemma {:induction false} ExtensionTrialsMeaning(comb: seq<Index>, cand: Index, n: nat, t: seq<Index>)
    requires n <= |comb|
    ensures t in ExtensionTrials(comb, cand, n) <==> Widening(comb, cand, t, n)
  {
    if n > 0 {
      ExtensionTrialsMeaning(comb, cand, n - 1, t);
      var ix := comb[n - 1];
      if Valid(ix) && Valid(cand) && AppendableBy(ix, cand) {
        assert Extended(ix, cand) == Add(ix, cand);
      }
      if Widening(comb, cand, t, n) {
        var i :| 0 <= i < n && i < |comb| && Valid(comb[i]) && Valid(cand) && AppendableBy(comb[i], cand) &&
          !ColumnsTaken(comb, Add(comb[i], cand).columns) && t == comb[i := Add(comb[i], cand)];
        if i < n - 1 {
          assert Widening(comb, cand, t, n - 1);
        }
      }
    }
  }

  /**
   * The trials for one candidate: none when the budget rules it out;
   * otherwise the combination plus the candidate, when the candidate is
   * not in it, and every widening.
   */
  lemma CandidateTrialsMeaning(comb: seq<Index>, cand: Index, combiSize: Option<int>, sizeOf: Index -> nat,
                               budget: int, t: seq<Index>)
    ensures t in CandidateTrials(comb, cand, combiSize, sizeOf, budget) <==>
      !Skipped(combiSize, cand, sizeOf, budget) &&
      ((cand !in comb && t == comb + [cand]) || Widening(comb, cand, t, |comb|))
  {
    ExtensionTrialsMeaning(comb, cand, |comb|, t);
  }

  /** No trial of the step from `x` (its size as given) fits the budget and lowers the cost of `x`. */
  ghost predicate Settled(x: seq<Index>, combiSize: Option<int>, cands: seq<Index>, cost: set<Index> -> real,
                          sizeOf: Index -> nat, budget: int) {
    var trials := StepTrials(x, cands, combiSize, sizeOf, budget, |cands|);
    forall k :: 0 <= k < |trials| ==> !Improves(Cost(cost, x), trials[k], cost, sizeOf, budget)
  }

  /** A step fails only by division by zero. */
  lemma StepFails(comb: seq<Index>, combiSize: Option<int>, bestCost: real, cands: seq<Index>,
                  cost: set<Index> -> real, sizeOf: Index -> nat, budget: int)
    ensures var l := Step(comb, combiSize, bestCost, cands, cost, sizeOf, budget);
      l.Err? ==> l.error == "ZeroDivisionError"
  {
    EvaluateAllFails(Leader(comb, 0.0, bestCost), StepTrials(comb, cands, combiSize, sizeOf, budget, |cands|),
                     cost, sizeOf, budget);
  }

  /**
   * What a step from a combination at its own cost `bestCost` leads to: it
   * fails only by division by zero; a ratio of 0 means that no trial
   * improves on the combination; otherwise the new combination fits the
   * budget and costs strictly less.
   */
  ghost predicate Outcome(comb: seq<Index>, combiSize: Option<int>, bestCost: real, cands: seq<Index>,
                          cost: set<Index> -> real, sizeOf: Index -> nat, budget: int, l: Result<Leader>) {
    (l.Err? ==> l.error == "ZeroDivisionError") &&
    (l.Ok? && l.value.ratio == 0.0 ==> Settled(comb, combiSize, cands, cost, sizeOf, budget)) &&
    (l.Ok? && l.value.ratio != 0.0 ==>
      0 < TotalSize(sizeOf, l.value.combination) <= budget &&
      l.value.cost == Cost(cost, l.value.combination) && l.value.cost < bestCost)
  }

  /** One step from a combination at its own cost has that outcome. */
  lemma StepOutcome(comb: seq<Index>, combiSize: Option<int>, bestCost: real, cands: seq<Index>,
                    cost: set<Index> -> real, sizeOf: Index -> nat, budget: int)
    requires bestCost == Cost(cost, comb)
    ensures Outcome(comb, combiSize, bestCost, cands, cost, sizeOf, budget,
                    Step(comb, combiSize, bestCost, cands, cost, sizeOf, budget))
  {
    var trials := StepTrials(comb, cands, combiSize, sizeOf, budget, |cands|);
    var start := Leader(comb, 0.0, bestCost);
    EvaluateAllFails(start, trials, cost, sizeOf, budget);
    EvaluateAllFromZero(start, trials, cost, sizeOf, budget);
  }

  /**
   * How the step loop may end from a combination at cost `bestCost`: with
   * that combination, when no trial of its step improves on it, or with a
   * combination that fits the budget, costs strictly less and has no
   * improving trial either.
   */
  ghost predicate EndsSettled(comb: seq<Index>, combiSize: Option<int>, bestCost: real, cands: seq<Index>,
                              cost: set<Index> -> real, sizeOf: Index -> nat, budget: int, x: seq<Index>) {
    (x == comb && Settled(comb, combiSize, cands, cost, sizeOf, budget)) ||
    (0 < TotalSize(sizeOf, x) <= budget && Cost(cost, x) < bestCost &&
     Settled(x, Some(TotalSize(sizeOf, x)), cands, cost, sizeOf, budget))
  }

  /** An ending reached after an improving step is an ending of the step before. */
  lemma EndsSettledAfterStep(comb: seq<Index>, combiSize: Option<int>, bestCost: real, next: seq<Index>,
                             nextCost: real, cands: seq<Index>, cost: set<Index> -> real, sizeOf: Index -> nat,
                             budget: int, x: seq<Index>)
    requires 0 < TotalSize(sizeOf, next) <= budget && nextCost == Cost(cost, next) && nextCost < bestCost
    requires EndsSettled(next, Some(TotalSize(sizeOf, next)), nextCost, cands, cost, sizeOf, budget, x)
    ensures EndsSettled(comb, combiSize, bestCost, cands, cost, sizeOf, budget, x)
  {
  }

  /**
   * The step loop from a combination at its own cost: it fails only by
   * division by zero or by running out of steps; it ends either with the
   * combination it started from, when the first step improves nothing, or
   * with a combination that fits the budget and costs strictly less, and
   * no trial of the step from the result improves on it.
   */
  lemma EpicFromShape(comb: seq<Index>, combiSize: Option<int>, bestCost: real, cands: seq<Index>,
                      cost: set<Index> -> real, sizeOf: Index -> nat, budget: int, fuel: nat)
    requires bestCost == Cost(cost, comb)
    ensures var r := EpicFrom(comb, combiSize, bestCost, cands, cost, sizeOf, budget, fuel);
      (r.Err? ==> r.error == "ZeroDivisionError" || r.error == "StepLimit") &&
      (r.Ok? ==> EndsSettled(comb, combiSize, bestCost, cands, cost, sizeOf, budget, r.value))
  {
    EpicFromErrors(comb, combiSize, bestCost, cands, cost, sizeOf, budget, fuel);
    EpicFromEnds(comb, combiSize, bestCost, cands, cost, sizeOf, budget, fuel);
  }

  /** The step loop fails only by division by zero or by running out of steps. */
  lemma EpicFromErrors(comb: seq<Index>, combiSize: Option<int>, bestCost: real, cands: seq<Index>,
                       cost: set<Index> -> real, sizeOf: Index -> nat, budget: int, fuel: nat)
    ensures var r := EpicFrom(comb, combiSize, bestCost, cands, cost, sizeOf, budget, fuel);
      r.Err? ==> r.error == "ZeroDivisionError" || r.error == "StepLimit"
  {
    if fuel > 0 {
      StepFails(comb, combiSize, bestCost, cands, cost, sizeOf, budget);
      AfterStepErrors(comb, Step(comb, combiSize, bestCost, cands, cost, sizeOf, budget), cands, cost, sizeOf, budget, fuel - 1);
    }
  }

  /** After a step that failed only by division by zero, the loop fails only so or by running out of steps. */
  lemma {:induction false} AfterStepErrors(comb: seq<Index>, l: Result<Leader>, cands: seq<Index>,
                                           cost: set<Index> -> real, sizeOf: Index -> nat, budget: int, next: nat)
    requires l.Err? ==> l.error == "ZeroDivisionError"
    ensures var r := AfterStep(comb, l, cands, cost, sizeOf, budget, next);
      r.Err? ==> r.error == "ZeroDivisionError" || r.error == "StepLimit"
    decreases next, 1
  {
    if l.Ok? && l.value.ratio != 0.0 && next > 0 {
      AfterImprovingStepErrors(comb, l, cands, cost, sizeOf, budget, next);
    }
  }

  /** The case of the above where the step improved and steps are left. */
  lemma {:induction false} AfterImprovingStepErrors(comb: seq<Index>, l: Result<Leader>, cands: seq<Index>,
                                                    cost: set<Index> -> real, sizeOf: Index -> nat, budget: int,
                                                    next: nat)
    requires l.Ok? && l.value.ratio != 0.0 && next > 0
    ensures var r := AfterStep(comb, l, cands, cost, sizeOf, budget, next);
      r.Err? ==> r.error == "ZeroDivisionError" || r.error == "StepLimit"
    decreases next, 0
  {
    var c := l.value.combination;
    var s := Some(TotalSize(sizeOf, c));
    var l2 := Step(c, s, l.value.cost, cands, cost, sizeOf, budget);
    StepFails(c, s, l.value.cost, cands, cost, sizeOf, budget);
    AfterStepErrors(c, l2, cands, cost, sizeOf, budget, next - 1);
    EpicFromStep(c, s, l.value.cost, cands, cost, sizeOf, budget, next, l2);
  }

  /** An ending of the step loop is settled, and is the start or a cheaper combination within the budget. */
  lemma EpicFromEnds(comb: seq<Index>, combiSize: Option<int>, bestCost: real, cands: seq<Index>,
                     cost: set<Index> -> real, sizeOf: Index -> nat, budget: int, fuel: nat)
    requires bestCost == Cost(cost, comb)
    ensures var r := EpicFrom(comb, combiSize, bestCost, cands, cost, sizeOf, budget, fuel);
      r.Ok? ==> EndsSettled(comb, combiSize, bestCost, cands, cost, sizeOf, budget, r.value)
  {
    if fuel > 0 {
      var l := Step(comb, combiSize, bestCost, cands, cost, sizeOf, budget);
      StepOutcome(comb, combiSize, bestCost, cands, cost, sizeOf, budget);
      AfterStepEnds(comb, combiSize, bestCost, l, cands, cost, sizeOf, budget, fuel - 1);
      EpicFromStep(comb, combiSize, bestCost, cands, cost, sizeOf, budget, fuel, l);
    }
  }

  /** After a step with its outcome, an ending of the loop is settled, and is the start or cheaper. */
  lemma {:induction false} AfterStepEnds(comb: seq<Index>, combiSize: Option<int>, bestCost: real, l: Result<Leader>,
                                         cands: seq<Index>, cost: set<Index> -> real, sizeOf: Index -> nat,
                                         budget: int, next: nat)
    requires Outcome(comb, combiSize, bestCost, cands, cost, sizeOf, budget, l)
    ensures var r := AfterStep(comb, l, cands, cost, sizeOf, budget, next);
      r.Ok? ==> EndsSettled(comb, combiSize, bestCost, cands, cost, sizeOf, budget, r.value)
    decreases next
  {
    if l.Ok? && l.value.ratio != 0.0 && next > 0 {
      var c := l.value.combination;
      var s := Some(TotalSize(sizeOf, c));
      var l2 := Step(c, s, l.value.cost, cands, cost, sizeOf, budget);
      StepOutcome(c, s, l.value.cost, cands, cost, sizeOf, budget);
      AfterStepEnds(c, s, l.value.cost, l2, cands, cost, sizeOf, budget, next - 1);
      EpicFromStep(c, s, l.value.cost, cands, cost, sizeOf, budget, next, l2);
      var rn := AfterStep(c, l2, cands, cost, sizeOf, budget, next - 1);
      if rn.Ok? {
        EndsSettledAfterStep(comb, combiSize, bestCost, c, l.value.cost, cands, cost, sizeOf, budget, rn.value);
      }
    }
  }

  /**
   * The step bound only cuts the loop off: a run that ends within `fuel`
   * steps ends the same way with any larger bound, so every result other
   * than the StepLimit error is the result of the unbounded `while True`.
   */
  lemma {:induction false} EpicFromMoreFuel(comb: seq<Index>, combiSize: Option<int>, bestCost: real, cands: seq<Index>,
                                            cost: set<Index> -> real, sizeOf: Index -> nat, budget: int,
                                            fuel: nat, more: nat)
    requires fuel <= more
    requires EpicFrom(comb, combiSize, bestCost, cands, cost, sizeOf, budget, fuel) != Err("StepLimit")
    ensures EpicFrom(comb, combiSize, bestCost, cands, cost, sizeOf, budget, more) ==
            EpicFrom(comb, combiSize, bestCost, cands, cost, sizeOf, budget, fuel)
    decreases fuel
  {
    var l := Step(comb, combiSize, bestCost, cands, cost, sizeOf, budget);
    assert fuel > 0;
    EpicFromStep(comb, combiSize, bestCost, cands, cost, sizeOf, budget, fuel, l);
    EpicFromStep(comb, combiSize, bestCost, cands, cost, sizeOf, budget, more, l);
    if l.Ok? && l.value.ratio != 0.0 {
      EpicFromMoreFuel(l.value.combination, Some(TotalSize(sizeOf, l.value.combination)), l.value.cost, cands,
                       cost, sizeOf, budget, fuel - 1, more - 1);
    }
  }

  /** `Epic` with a larger step bound agrees with every result that is not the StepLimit error. */
  lemma EpicMoreFuel(cands: seq<Index>, cost: set<Index> -> real, sizeOf: Index -> nat, budget: int, fuel: nat, more: nat)
    requires fuel <= more && Epic(cands, cost, sizeOf, budget, fuel) != Err("StepLimit")
    ensures Epic(cands, cost, sizeOf, budget, more) == Epic(cands, cost, sizeOf, budget, fuel)
  {
    EpicFromMoreFuel([], None, Cost(cost, []), cands, cost, sizeOf, budget, fuel, more);
  }

  /**
   * `_calculate_best_indexes`: the result is no index, when nothing
   * improves on the cost without indexes, or a combination within the
   * budget that costs strictly less than no index; either way no trial of
   * a further step would fit the budget and lower its cost.
   */
  lemma EpicShape(cands: seq<Index>, cost: set<Index> -> real, sizeOf: Index -> nat, budget: int, fuel: nat)
    ensures var r := Epic(cands, cost, sizeOf, budget, fuel);
      (r.Err? ==> r.error == "ZeroDivisionError" || r.error == "StepLimit") &&
      (r.Ok? ==>
        (r.value == [] && Settled([], None, cands, cost, sizeOf, budget)) ||
        (0 < TotalSize(sizeOf, r.value) <= budget && Cost(cost, r.value) < Cost(cost, []) &&
         Settled(r.value, Some(TotalSize(sizeOf, r.value)), cands, cost, sizeOf, budget)))
  {
    EpicFromShape([], None, Cost(cost, []), cands, cost, sizeOf, budget, fuel);
  }
}
