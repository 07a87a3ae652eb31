/**
 * selection/selection_algorithm.py: the base class every index selection
 * algorithm derives from: parameter defaults, the run-once flag and the
 * cost-estimation completion after the search, plus the two trivial
 * algorithms.
 */
module SelectionAlgorithms {
  import opened Common
  import opened Schema
  import opened Indexes
  import opened Workloads
  import opened Database
  import opened WhatIf
  import opened CostEvaluations

  /** A decoded parameter value (JSON scalars, lists and objects, the latter with their keys in order). */
  datatype ParamValue =
    | IntParam(n: int)
    | RealParam(x: real)
    | TextParam(s: string)
    | BoolParam(b: bool)
    | ListParam(items: seq<ParamValue>)
    | DictParam(entries: seq<(string, ParamValue)>)
    | NullParam

  type Params = map<string, ParamValue>

  /**
   * The default-filling loop of `__init__`: `not parameters` (None or empty)
   * starts from {}; every default key that is missing is added with its
   * default value; supplied keys keep their values and none is removed.
   */
  method FillDefaults(given: Option<Params>, defaults: Params) returns (r: Params)
    ensures var p := if given.None? then map[] else given.value;
      r.Keys == p.Keys + defaults.Keys &&
      (forall k :: k in p ==> r[k] == p[k]) &&
      (forall k :: k in defaults && k !in p ==> r[k] == defaults[k])
  {
    var p: Params := if given.None? then map[] else given.value;
    r := p;
    var todo := defaults.Keys;
    while todo != {}
      invariant todo <= defaults.Keys
      invariant Filled(p, defaults, r, defaults.Keys - todo)
      decreases |todo|
    {
      var k :| k in todo;
      ghost var before := r;
      if k !in r {
        r := r[k := defaults[k]];
      }
      FilledStep(p, defaults, before, todo, k, r);
      todo := todo - {k};
    }
  }

  /** The parameters `p` with the defaults of the keys in `done` filled in. */
  predicate Filled(p: Params, defaults: Params, r: Params, done: set<string>)
    requires done <= defaults.Keys
  {
    r.Keys == p.Keys + done &&
    (forall k :: k in p ==> k in r && r[k] == p[k]) &&
    (forall k :: k in done && k !in p ==> k in r && r[k] == defaults[k])
  }

  /** One more default key: added when missing, otherwise left alone. */
  lemma FilledStep(p: Params, defaults: Params, r: Params, todo: set<string>, k: string, r': Params)
    requires todo <= defaults.Keys && k in todo && Filled(p, defaults, r, defaults.Keys - todo)
    requires r' == if k !in r then r[k := defaults[k]] else r
    ensures Filled(p, defaults, r', defaults.Keys - (todo - {k}))
  {
    assert defaults.Keys - (todo - {k}) == (defaults.Keys - todo) + {k};
  }

  /**
   * The mode a 'cost_estimation' parameter sets. A non-text value, which
   * Python would store as it is, can never equal 'whatif'; it is modelled
   * by the empty string.
   */
  function EstimationMode(v: ParamValue): (mode: string)
    ensures v.TextParam? ==> mode == v.s
    ensures mode == "whatif" ==> v == TextParam("whatif")
  {
    if v.TextParam? then v.s else ""
  }

  /** `potential_indexes`: one single-column index per indexable column. */
  method PotentialIndexes(w: Workload) returns (r: seq<Index>)
    ensures Distinct(r)
    ensures forall ix :: ix in r ==> Valid(ix) && IsSingleColumn(ix)
    ensures forall c :: Index([c]) in r <==> Referenced(w.queries, c)
  {
    var columns := IndexableColumns(w);
    r := seq(|columns|, k requires 0 <= k < |columns| => Index([columns[k]]));
    forall c ensures Index([c]) in r <==> c in columns {
      if Index([c]) in r {
        var k :| 0 <= k < |r| && r[k] == Index([c]);
        assert r[k].columns[0] == columns[k];
      }
      if c in columns {
        var k :| 0 <= k < |columns| && columns[k] == c;
        assert r[k] == Index([c]);
      }
    }
    forall i, j | 0 <= i < j < |r| ensures r[i] != r[j] {
      assert r[i].columns[0] == columns[i] && r[j].columns[0] == columns[j];
    }
  }

  /** `NoIndexAlgorithm._calculate_best_indexes`. */
  method NoIndexAlgorithmIndexes(w: Workload) returns (r: seq<Index>)
    ensures r == []
  {
    r := [];
  }

  /** `AllIndexesAlgorithm._calculate_best_indexes`: the potential indexes. */
  method AllIndexesAlgorithmIndexes(w: Workload) returns (r: seq<Index>)
    ensures forall c :: Index([c]) in r <==> Referenced(w.queries, c)
    ensures Distinct(r) && forall ix :: ix in r ==> IsSingleColumn(ix)
  {
    r := PotentialIndexes(w);
  }

  class SelectionAlgorithm {
    var didRun: bool
    var parameters: Params
    const costEvaluation: CostEvaluation

    ghost predicate Valid()
      reads this, costEvaluation, costEvaluation.whatIf, costEvaluation.connector
    {
      costEvaluation.Valid()
    }

    /**
     * `__init__`: defaults merged into the parameters, a new cost evaluation
     * in what-if mode unless a 'cost_estimation' parameter overrides it.
     */
    constructor (connector: Connector, given: Option<Params>, defaults: Params)
      requires connector.Valid()
      ensures Valid() && !didRun && fresh(costEvaluation)
      ensures var p := if given.None? then map[] else given.value;
        parameters.Keys == p.Keys + defaults.Keys &&
        (forall k :: k in p ==> parameters[k] == p[k]) &&
        (forall k :: k in defaults && k !in p ==> parameters[k] == defaults[k])
      ensures costEvaluation.connector == connector
      ensures costEvaluation.costEstimation ==
        if "cost_estimation" in parameters then EstimationMode(parameters["cost_estimation"]) else "whatif"
      ensures !costEvaluation.pruning && costEvaluation.whatIf.keys == []
    {
      didRun := false;
      var merged := FillDefaults(given, defaults);
      parameters := merged;
      var mode := if "cost_estimation" in merged then EstimationMode(merged["cost_estimation"]) else "whatif";
      costEvaluation := new CostEvaluation(connector, mode);
    }

    /**
     * `calculate_best_indexes` as written: after the body it reads
     * `cost_evaluation.cache_hits` (in `_log_cache_hits`) and calls
     * `cost_evaluation.complete_cost_estimation()`, neither of which the
     * cost evaluation class defines, so every run whose body succeeds ends
     * in AttributeError. `body` is the outcome of `_calculate_best_indexes`.
     */
    method CalculateBestIndexesAsWritten(body: Result<seq<Index>>) returns (r: Result<seq<Index>>)
      modifies this`didRun
      ensures old(didRun) ==> r == Err("AssertionError") && didRun
      ensures !old(didRun) ==> didRun && (body.Err? ==> r == body) && (body.Ok? ==> r == Err("AttributeError"))
    {
      if didRun {
        return Err("AssertionError");
      }
      didRun := true;
      if body.Err? {
        return body;
      }
      r := Err("AttributeError");
    }

    /**
     * `calculate_best_indexes` as intended: the run-once assertion, `did_run`
     * set before the body (so a failing body leaves it set), then the
     * completion of the cost estimation, which drops every tracked
     * simulation, and the body's indexes.
     */
    method CalculateBestIndexes(body: Result<seq<Index>>) returns (r: Result<seq<Index>>)
      requires Valid()
      modifies this`didRun, costEvaluation.whatIf`keys, costEvaluation.whatIf`names,
        costEvaluation.connector`hypothetical, costEvaluation.connector`statements
      ensures Valid()
      ensures old(didRun) ==> r == Err("AssertionError") && didRun
      ensures !old(didRun) ==> didRun && r == body
      ensures !old(didRun) && body.Ok? ==>
        costEvaluation.whatIf.keys == [] &&
        costEvaluation.connector.hypothetical ==
          old(costEvaluation.connector.hypothetical) - SetOf(old(costEvaluation.whatIf.keys))
    {
      if didRun {
        return Err("AssertionError");
      }
      didRun := true;
      if body.Err? {
        return body;
      }
      costEvaluation.CompleteCostEstimation();
      r := body;
    }
  }
}
