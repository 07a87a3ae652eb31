/**
 * selection/algorithms/relaxation_algorithm.py: start from every index some
 * query's plan used (the recommendation step is the one of the DB2
 * advisor, copied unchanged there and shared here), and while the
 * configuration is over the disk budget remove the index with the lowest
 * penalty: cost increase over the initial cost, per byte of the overage it
 * saves.
 *
 * `cost` is `CostEvaluations.CostEvaluation.CalculateCost` (`calculate_cost`)
 * over the workload, read as a function of the index set; sizes come from the size oracle.
 */
module RelaxationAlgorithms {
  import opened Common
  import opened Indexes
  import opened Workloads
  import opened Search
  import opened WhatIf
  import opened SelectionAlgorithms
  import Ibm = IbmAlgorithm

  /** `DEFAULT_PARAMETERS`. */
  function DefaultParameters(): (p: Params)
    ensures p.Keys == {"max_index_columns", "budget"}
  {
    map["max_index_columns" := IntParam(3), "budget" := IntParam(500)]
  }

  /** `__init__`: `disk_constraint` is the budget in MB times 1,000,000. */
  function DiskConstraint(p: Params): Option<int> {
    var budget := Ibm.IntSetting(p, "budget");
    if budget.Some? then Some(budget.value * 1000000) else None
  }

  /** The budget is read in MB and stored in bytes; the default gives 500,000,000. */
  lemma DiskConstraintInBytes(p: Params)
    ensures DiskConstraint(p).Some? <==> "budget" in p && p["budget"].IntParam?
    ensures DiskConstraint(p).Some? ==> DiskConstraint(p).value == p["budget"].n * 1000000
    ensures DiskConstraint(DefaultParameters()) == Some(500000000)
  {
    assert Ibm.IntSetting(DefaultParameters(), "budget") == Some(500);
  }

  /** The best relaxation so far: the smaller configuration, its size and its penalty. */
  datatype Relaxation = Relaxation(relaxed: seq<Index>, size: int, penalty: real)

  /** `relaxed_cost_increase`: measured against the cost of the initial configuration. */
  function Increase(cp: seq<Index>, ix: Index, cpCost: real, cost: set<Index> -> real): real {
    Cost(cost, Without(cp, ix)) - cpCost
  }

  /** The estimated size of one index. */
  function SizeOf(sizeOf: Index -> nat, ix: Index): nat {
    sizeOf(ix)
  }

  /** `relaxed_storage_savings`: the index's size, but no more than the overage. */
  function Savings(ix: Index, cpSize: int, disk: int, sizeOf: Index -> nat): int {
    Min(SizeOf(sizeOf, ix), cpSize - disk)
  }

  /** Both assertions of the removal loop hold for the index at `j`. */
  predicate Admissible(cp: seq<Index>, cpSize: int, cpCost: real, disk: int, cost: set<Index> -> real,
                       sizeOf: Index -> nat, j: nat)
    requires j < |cp|
  {
    Increase(cp, cp[j], cpCost, cost) >= 0.0 && Savings(cp[j], cpSize, disk, sizeOf) > 0
  }

  /** `relaxed_cost_increase / relaxed_storage_savings` for the index at `j`. */
  function Penalty(cp: seq<Index>, cpSize: int, cpCost: real, disk: int, cost: set<Index> -> real,
                   sizeOf: Index -> nat, j: nat): real
    requires j < |cp| && Admissible(cp, cpSize, cpCost, disk, cost, sizeOf, j)
  {
    Increase(cp, cp[j], cpCost, cost) / (Savings(cp[j], cpSize, disk, sizeOf) as real)
  }

  /**
   * One turn of the removal loop, for the index at `j`: both assertions,
   * then the configuration without it, its size and its penalty.
   */
  function Candidate(cp: seq<Index>, cpSize: int, cpCost: real, disk: int, cost: set<Index> -> real,
                     sizeOf: Index -> nat, j: nat): (r: Result<Relaxation>)
    requires j < |cp|
    ensures r.Ok? ==> |r.value.relaxed| < |cp| && cp[j] !in r.value.relaxed
  {
    var ix := cp[j];
    var increase := Increase(cp, ix, cpCost, cost);
    var savings := Savings(ix, cpSize, disk, sizeOf);
    if increase < 0.0 then Err("AssertionError")
    else if savings <= 0 then Err("AssertionError")
    else
      WithoutShorter(cp, ix);
      Ok(Relaxation(Without(cp, ix), cpSize - SizeOf(sizeOf, ix), increase / (savings as real)))
  }

  /** The turns of the removal loop for the first `k` indexes, in order. */
  function Candidates(cp: seq<Index>, cpSize: int, cpCost: real, disk: int, cost: set<Index> -> real,
                      sizeOf: Index -> nat, k: nat): (r: seq<Result<Relaxation>>)
    requires k <= |cp|
    ensures |r| == k
  {
    if k == 0 then [] else Candidates(cp, cpSize, cpCost, disk, cost, sizeOf, k - 1) + [Candidate(cp, cpSize, cpCost, disk, cost, sizeOf, k - 1)]
  }

  /** The `j`-th turn. */
  lemma {:induction false} CandidatesAt(cp: seq<Index>, cpSize: int, cpCost: real, disk: int, cost: set<Index> -> real,
                                        sizeOf: Index -> nat, k: nat, j: nat)
    requires j < k <= |cp|
    ensures Candidates(cp, cpSize, cpCost, disk, cost, sizeOf, k)[j] == Candidate(cp, cpSize, cpCost, disk, cost, sizeOf, j)
  {
    if j < k - 1 {
      CandidatesAt(cp, cpSize, cpCost, disk, cost, sizeOf, k - 1, j);
    }
  }

  /**
   * The running best of the removal loop over some turns: a failed
   * assertion ends it; otherwise the best is replaced when there is none
   * yet or its penalty is strictly higher.
   */
  function Best(cs: seq<Result<Relaxation>>): (r: Result<Option<Relaxation>>)
    ensures r.Ok? && r.value.Some? ==> Ok(r.value.value) in cs
    ensures r.Ok? && |cs| > 0 ==> r.value.Some?
  {
    if |cs| == 0 then Ok(None)
    else
      var prev := Best(cs[..|cs| - 1]);
      var c := cs[|cs| - 1];
      if prev.Err? then prev
      else if c.Err? then Err(c.error)
      else if prev.value.None? || prev.value.value.penalty > c.value.penalty then Ok(Some(c.value))
      else prev
  }

  /** The removal loop over the whole configuration. */
  function Scan(cp: seq<Index>, cpSize: int, cpCost: real, disk: int, cost: set<Index> -> real,
                sizeOf: Index -> nat): (r: Result<Option<Relaxation>>)
    ensures r.Ok? && r.value.Some? ==> |r.value.value.relaxed| < |cp|
    ensures r.Ok? && |cp| > 0 ==> r.value.Some?
  {
    ScanShorter(cp, cpSize, cpCost, disk, cost, sizeOf);
    Best(Candidates(cp, cpSize, cpCost, disk, cost, sizeOf, |cp|))
  }

  lemma ScanShorter(cp: seq<Index>, cpSize: int, cpCost: real, disk: int, cost: set<Index> -> real,
                    sizeOf: Index -> nat)
    ensures var r := Best(Candidates(cp, cpSize, cpCost, disk, cost, sizeOf, |cp|));
      r.Ok? && r.value.Some? ==> |r.value.value.relaxed| < |cp|
  {
    var cs := Candidates(cp, cpSize, cpCost, disk, cost, sizeOf, |cp|);
    var r := Best(cs);
    if r.Ok? && r.value.Some? {
      var j :| 0 <= j < |cs| && cs[j] == Ok(r.value.value);
      CandidatesAt(cp, cpSize, cpCost, disk, cost, sizeOf, |cp|, j);
    }
  }

  /**
   * The relaxation loop from `cp`: done once it fits; a failed assertion
   * ends it; an empty configuration that is still over budget (only
   * possible with a negative budget) leaves `cp_size` None, and comparing
   * that is a TypeError.
   */
  function RelaxFrom(cp: seq<Index>, cpSize: int, cpCost: real, disk: int, cost: set<Index> -> real,
                     sizeOf: Index -> nat): Result<seq<Index>>
    decreases |cp|
  {
    if cpSize <= disk then Ok(cp)
    else
      var s := Scan(cp, cpSize, cpCost, disk, cost, sizeOf);
      if s.Err? then Err(s.error)
      else if s.value.None? then Err("TypeError")
      else RelaxFrom(s.value.value.relaxed, s.value.value.size, cpCost, disk, cost, sizeOf)
  }

  /** The workload cost under a configuration. */
  function Cost(cost: set<Index> -> real, cp: seq<Index>): real {
    cost(SetOf(cp))
  }

  /** What `_calculate_best_indexes` does with the candidates. */
  function Relaxed(candidates: seq<Index>, disk: int, cost: set<Index> -> real, sizeOf: Index -> nat): Result<seq<Index>> {
    RelaxFrom(candidates, TotalSize(sizeOf, candidates), Cost(cost, candidates), disk, cost, sizeOf)
  }

  /** One more turn of the removal loop. */
  lemma BestAppend(cs: seq<Result<Relaxation>>, c: Result<Relaxation>)
    ensures var prev := Best(cs);
      Best(cs + [c]) ==
        if prev.Err? then prev
        else if c.Err? then Err(c.error)
        else if prev.value.None? || prev.value.value.penalty > c.value.penalty then Ok(Some(c.value))
        else prev
  {
    assert (cs + [c])[..|cs|] == cs;
  }

  /** A turn whose assertions hold removes its index. */
  lemma CandidateOk(cp: seq<Index>, cpSize: int, cpCost: real, disk: int, cost: set<Index> -> real,
                    sizeOf: Index -> nat, i: nat)
    requires i < |cp| && Increase(cp, cp[i], cpCost, cost) >= 0.0 && Savings(cp[i], cpSize, disk, sizeOf) > 0
    ensures Candidate(cp, cpSize, cpCost, disk, cost, sizeOf, i) ==
      Ok(Relaxation(Without(cp, cp[i]), cpSize - SizeOf(sizeOf, cp[i]),
                    Increase(cp, cp[i], cpCost, cost) / (Savings(cp[i], cpSize, disk, sizeOf) as real)))
  {
  }

  /** One more turn of the removal loop whose assertions hold: the best is updated. */
  lemma PenaltyNext(cs: seq<Result<Relaxation>>, i: nat, best: Option<Relaxation>, c: Relaxation, next: Option<Relaxation>)
    requires i < |cs| && Best(cs[..i]) == Ok(best) && cs[i] == Ok(c)
    requires next == if best.None? || best.value.penalty > c.penalty then Some(c) else best
    ensures Best(cs[..i + 1]) == Ok(next)
  {
    assert cs[..i + 1] == cs[..i] + [cs[i]];
    BestAppend(cs[..i], cs[i]);
  }

  /** A turn whose assertion fails fails the whole removal loop. */
  lemma PenaltyFails(cp: seq<Index>, cpSize: int, cpCost: real, disk: int, cost: set<Index> -> real,
                     sizeOf: Index -> nat, i: nat)
    requires i < |cp| && Candidate(cp, cpSize, cpCost, disk, cost, sizeOf, i).Err?
    ensures Scan(cp, cpSize, cpCost, disk, cost, sizeOf) == Err("AssertionError")
  {
    CandidateMeaning(cp, cpSize, cpCost, disk, cost, sizeOf, i);
    ScanFails(cp, cpSize, cpCost, disk, cost, sizeOf);
  }

  /**
   * One turn of the removal loop of `_calculate_best_indexes`: both
   * assertions for the index at `i`, then the running best, replaced when
   * there is none yet or its penalty is strictly higher.
   */
  method PenaltyTurn(cp: seq<Index>, cpSize: int, cpCost: real, disk: int, cost: set<Index> -> real,
                     sizeOf: Index -> nat, i: nat, best: Option<Relaxation>)
    returns (r: Result<Option<Relaxation>>)
    requires i < |cp|
    ensures r == match Candidate(cp, cpSize, cpCost, disk, cost, sizeOf, i)
      case Err(e) => Err(e)
      case Ok(c) => Ok(if best.None? || best.value.penalty > c.penalty then Some(c) else best)
  {
    var ix := cp[i];
    var increase := Increase(cp, ix, cpCost, cost);
    var savings := Savings(ix, cpSize, disk, sizeOf);
    if increase < 0.0 || savings <= 0 {
      return Err("AssertionError");
    }
    var penalty := increase / (savings as real);
    var relaxation := Relaxation(Without(cp, ix), cpSize - SizeOf(sizeOf, ix), penalty);
    if best.None? || best.value.penalty > penalty {
      r := Ok(Some(relaxation));
    } else {
      r := Ok(best);
    }
  }

  /**
   * The removal loop of `_calculate_best_indexes`: for each index, the
   * relaxed configuration, both assertions, and the lowest penalty so far.
   */
  method LowestPenalty(cp: seq<Index>, cpSize: int, cpCost: real, disk: int, cost: set<Index> -> real,
                       sizeOf: Index -> nat)
    returns (r: Result<Option<Relaxation>>)
    ensures r == Scan(cp, cpSize, cpCost, disk, cost, sizeOf)
  {
    ghost var cs := Candidates(cp, cpSize, cpCost, disk, cost, sizeOf, |cp|);
    var best: Option<Relaxation> := None;
    var i := 0;
    while i < |cp|
      invariant 0 <= i <= |cp|
      invariant Best(cs[..i]) == Ok(best)
    {
      var turn := PenaltyTurn(cp, cpSize, cpCost, disk, cost, sizeOf, i, best);
      if turn.Err? {
        PenaltyFails(cp, cpSize, cpCost, disk, cost, sizeOf, i);
        return Err("AssertionError");
      }
      CandidatesAt(cp, cpSize, cpCost, disk, cost, sizeOf, |cp|, i);
      PenaltyNext(cs, i, best, cs[i].value, turn.value);
      best := turn.value;
      i := i + 1;
    }
    assert cs[..i] == cs;
    r := Ok(best);
  }

  /**
   * `_calculate_best_indexes` for given candidates: remove the index of
   * lowest penalty until the configuration fits.
   */
  method Relax(candidates: seq<Index>, disk: int, cost: set<Index> -> real, sizeOf: Index -> nat)
    returns (r: Result<seq<Index>>)
    ensures r == Relaxed(candidates, disk, cost, sizeOf)
  {
    var cp := candidates;
    var cpSize: int := TotalSize(sizeOf, cp);
    var cpCost := Cost(cost, cp);
    while cpSize > disk
      invariant Relaxed(candidates, disk, cost, sizeOf) == RelaxFrom(cp, cpSize, cpCost, disk, cost, sizeOf)
      decreases |cp|
    {
      var best := LowestPenalty(cp, cpSize, cpCost, disk, cost, sizeOf);
      if best.Err? {
        return Err(best.error);
      }
      if best.value.None? {
        return Err("TypeError");
      }
      cp := best.value.value.relaxed;
      cpSize := best.value.value.size;
    }
    r := Ok(cp);
  }

  /** `_calculate_best_indexes`: the recommended candidates, relaxed into the budget. */
  method CalculateBestIndexes(whatIf: WhatIfIndexCreation, w: Workload, maxColumns: int, disk: int,
                              cost: set<Index> -> real)
    returns (r: Result<seq<Index>>)
    requires whatIf.Valid()
    modifies whatIf, whatIf.connector
    ensures whatIf.Valid()
    ensures var trace := Ibm.Trace(Ibm.OracleOf(whatIf.connector), old(Ibm.StateOf(whatIf)), w.queries, maxColumns);
      r == Relaxed(Ibm.Union(trace), disk, cost, whatIf.connector.sizeOf)
  {
    var _, candidates := Ibm.ExploitVirtualIndexes(whatIf, w, maxColumns);
    r := Relax(candidates, disk, cost, whatIf.connector.sizeOf);
  }

  // ------------------------------------------------------------ properties

  /** The running best fails exactly when some turn fails, with the first failure's error. */
  lemma {:induction false} BestFails(cs: seq<Result<Relaxation>>)
    ensures Best(cs).Err? <==> exists j :: 0 <= j < |cs| && cs[j].Err?
    ensures Best(cs).Err? ==>
      exists j :: 0 <= j < |cs| && cs[j] == Err(Best(cs).error) && (forall i :: 0 <= i < j ==> cs[i].Ok?)
  {
    if |cs| > 0 {
      var init := cs[..|cs| - 1];
      BestFails(init);
      assert forall j :: 0 <= j < |init| ==> init[j] == cs[j];
    }
  }

  /**
   * A running best over turns that all pass is the first turn of lowest
   * penalty: earlier turns have a strictly higher penalty, later ones a
   * penalty at least as high.
   */
  lemma {:induction false} BestChoice(cs: seq<Result<Relaxation>>) returns (j: nat)
    requires |cs| > 0 && Best(cs).Ok?
    ensures forall i :: 0 <= i < |cs| ==> cs[i].Ok?
    ensures j < |cs| && Best(cs) == Ok(Some(cs[j].value))
    ensures forall i :: 0 <= i < j ==> cs[i].value.penalty > cs[j].value.penalty
    ensures forall i :: j <= i < |cs| ==> cs[i].value.penalty >= cs[j].value.penalty
  {
    var n := |cs|;
    var init := cs[..n - 1];
    assert forall i :: 0 <= i < |init| ==> init[i] == cs[i];
    if n == 1 {
      j := 0;
    } else {
      var j0 := BestChoice(init);
      if cs[j0].value.penalty > cs[n - 1].value.penalty {
        j := n - 1;
      } else {
        j := j0;
      }
    }
  }

  /** One turn fails, with an AssertionError, exactly when an assertion fails; otherwise it removes that index. */
  lemma CandidateMeaning(cp: seq<Index>, cpSize: int, cpCost: real, disk: int, cost: set<Index> -> real,
                         sizeOf: Index -> nat, j: nat)
    requires j < |cp|
    ensures Candidate(cp, cpSize, cpCost, disk, cost, sizeOf, j).Ok? <==> Admissible(cp, cpSize, cpCost, disk, cost, sizeOf, j)
    ensures Candidate(cp, cpSize, cpCost, disk, cost, sizeOf, j).Err? ==> Candidate(cp, cpSize, cpCost, disk, cost, sizeOf, j).error == "AssertionError"
    ensures Candidate(cp, cpSize, cpCost, disk, cost, sizeOf, j).Ok? ==>
      Candidate(cp, cpSize, cpCost, disk, cost, sizeOf, j).value == Relaxation(Without(cp, cp[j]), cpSize - sizeOf(cp[j]), Penalty(cp, cpSize, cpCost, disk, cost, sizeOf, j))
  {
  }

  /** The removal loop fails, with an AssertionError, exactly when some index breaks an assertion. */
  lemma ScanFails(cp: seq<Index>, cpSize: int, cpCost: real, disk: int, cost: set<Index> -> real,
                  sizeOf: Index -> nat)
    ensures Scan(cp, cpSize, cpCost, disk, cost, sizeOf).Err? <==> exists j :: 0 <= j < |cp| && !Admissible(cp, cpSize, cpCost, disk, cost, sizeOf, j)
    ensures Scan(cp, cpSize, cpCost, disk, cost, sizeOf).Err? ==>
      Scan(cp, cpSize, cpCost, disk, cost, sizeOf).error == "AssertionError"
  {
    var cs := Candidates(cp, cpSize, cpCost, disk, cost, sizeOf, |cp|);
    BestFails(cs);
    forall j | 0 <= j < |cp|
      ensures cs[j].Ok? <==> Admissible(cp, cpSize, cpCost, disk, cost, sizeOf, j)
      ensures cs[j].Err? ==> cs[j].error == "AssertionError"
    {
      CandidatesAt(cp, cpSize, cpCost, disk, cost, sizeOf, |cp|, j);
      CandidateMeaning(cp, cpSize, cpCost, disk, cost, sizeOf, j);
    }
  }

  /**
   * When the removal loop succeeds over a non-empty configuration, every
   * index passes both assertions and it picks the first index of lowest
   * penalty: every index before it has a strictly higher penalty, every
   * later one a penalty at least as high. The relaxed configuration is
   * `cp` without that index and its size is `cp_size` less that index's
   * size.
   */
  lemma ScanChoice(cp: seq<Index>, cpSize: int, cpCost: real, disk: int, cost: set<Index> -> real,
                   sizeOf: Index -> nat) returns (j: nat)
    requires |cp| > 0 && Scan(cp, cpSize, cpCost, disk, cost, sizeOf).Ok?
    ensures forall i :: 0 <= i < |cp| ==> Admissible(cp, cpSize, cpCost, disk, cost, sizeOf, i)
    ensures j < |cp|
    ensures Scan(cp, cpSize, cpCost, disk, cost, sizeOf) ==
      Ok(Some(Relaxation(Without(cp, cp[j]), cpSize - sizeOf(cp[j]), Penalty(cp, cpSize, cpCost, disk, cost, sizeOf, j))))
    ensures forall i :: 0 <= i < j ==> Penalty(cp, cpSize, cpCost, disk, cost, sizeOf, i) > Penalty(cp, cpSize, cpCost, disk, cost, sizeOf, j)
    ensures forall i :: j <= i < |cp| ==> Penalty(cp, cpSize, cpCost, disk, cost, sizeOf, i) >= Penalty(cp, cpSize, cpCost, disk, cost, sizeOf, j)
  {
    var cs := Candidates(cp, cpSize, cpCost, disk, cost, sizeOf, |cp|);
    j := BestChoice(cs);
    forall i | 0 <= i < |cp|
      ensures Admissible(cp, cpSize, cpCost, disk, cost, sizeOf, i) && cs[i].value == Relaxation(Without(cp, cp[i]), cpSize - sizeOf(cp[i]), Penalty(cp, cpSize, cpCost, disk, cost, sizeOf, i))
    {
      CandidatesAt(cp, cpSize, cpCost, disk, cost, sizeOf, |cp|, i);
      CandidateMeaning(cp, cpSize, cpCost, disk, cost, sizeOf, i);
    }
  }

  lemma TotalSizeAppend(sizeOf: Index -> nat, s: seq<Index>, x: Index)
    ensures TotalSize(sizeOf, s + [x]) == TotalSize(sizeOf, s) + sizeOf(x)
  {
    assert (s + [x])[..|s|] == s;
  }

  /** Removing an index from a configuration without repetitions lowers its size by that index's size. */
  lemma {:induction false} TotalSizeWithout(sizeOf: Index -> nat, s: seq<Index>, x: Index)
    requires Distinct(s) && x in s
    ensures TotalSize(sizeOf, Without(s, x)) == TotalSize(sizeOf, s) - sizeOf(x)
  {
    var init := s[..|s| - 1];
    var last := s[|s| - 1];
    assert s == init + [last];
    assert Distinct(init);
    if last == x {
      assert x !in init;
    } else {
      assert x in init;
      TotalSizeWithout(sizeOf, init, x);
      TotalSizeAppend(sizeOf, Without(init, x), last);
    }
  }

  /** Removing an element keeps the order of the others. */
  lemma {:induction false} WithoutSubsequence(s: seq<Index>, x: Index)
    ensures SubsequenceOf(Without(s, x), s)
  {
    if |s| == 0 {
    } else {
      var init := s[..|s| - 1];
      var last := s[|s| - 1];
      assert s == init + [last];
      WithoutSubsequence(init, x);
      SubsequenceExtend(Without(init, x), init, last);
    }
  }

  /**
   * Each relaxation step removes exactly one index of `cp` and lowers the
   * size by that index's size; the next round measures penalties against
   * the same initial cost.
   */
  lemma RelaxStep(cp: seq<Index>, cpSize: int, cpCost: real, disk: int, cost: set<Index> -> real, sizeOf: Index -> nat)
    returns (j: nat)
    requires Distinct(cp) && |cp| > 0
    requires Scan(cp, cpSize, cpCost, disk, cost, sizeOf).Ok?
    ensures j < |cp|
    ensures var x := Scan(cp, cpSize, cpCost, disk, cost, sizeOf).value.value;
      x.relaxed == Without(cp, cp[j]) && x.size == cpSize - sizeOf(cp[j]) &&
      |x.relaxed| == |cp| - 1 && cp[j] !in x.relaxed && SetOf(x.relaxed) == SetOf(cp) - {cp[j]}
  {
    j := ScanChoice(cp, cpSize, cpCost, disk, cost, sizeOf);
    WithoutLength(cp, cp[j]);
  }

  /** The relaxation loop goes on from the lowest-penalty removal. */
  lemma RelaxFromUnfold(cp: seq<Index>, cpSize: int, cpCost: real, disk: int, cost: set<Index> -> real, sizeOf: Index -> nat)
    requires cpSize > disk
    requires Scan(cp, cpSize, cpCost, disk, cost, sizeOf).Ok? && Scan(cp, cpSize, cpCost, disk, cost, sizeOf).value.Some?
    ensures var x := Scan(cp, cpSize, cpCost, disk, cost, sizeOf).value.value;
      RelaxFrom(cp, cpSize, cpCost, disk, cost, sizeOf) == RelaxFrom(x.relaxed, x.size, cpCost, disk, cost, sizeOf)
  {
  }

  /**
   * On repetition-free candidates, a successful relaxation returns a
   * repetition-free configuration, drawn from the candidates in their
   * order, whose total size fits the budget; the TypeError happens only
   * with a negative budget.
   */
  lemma {:induction false} RelaxFromFits(cp: seq<Index>, cpSize: int, cpCost: real, disk: int, cost: set<Index> -> real,
                                         sizeOf: Index -> nat)
    requires Distinct(cp) && cpSize == TotalSize(sizeOf, cp)
    ensures var r := RelaxFrom(cp, cpSize, cpCost, disk, cost, sizeOf);
      (r.Ok? ==> Distinct(r.value) && SubsequenceOf(r.value, cp) && TotalSize(sizeOf, r.value) <= disk) &&
      (r == Err("TypeError") ==> disk < 0)
    decreases |cp|
  {
    if cpSize <= disk {
      SubsequenceOfSelf(cp);
    } else {
      var s := Scan(cp, cpSize, cpCost, disk, cost, sizeOf);
      ScanFails(cp, cpSize, cpCost, disk, cost, sizeOf);
      if s.Ok? && |cp| > 0 {
        var j := RelaxStep(cp, cpSize, cpCost, disk, cost, sizeOf);
        var relaxed := s.value.value.relaxed;
        RelaxFromUnfold(cp, cpSize, cpCost, disk, cost, sizeOf);
        TotalSizeWithout(sizeOf, cp, cp[j]);
        RelaxFromFits(relaxed, s.value.value.size, cpCost, disk, cost, sizeOf);
        var r := RelaxFrom(relaxed, s.value.value.size, cpCost, disk, cost, sizeOf);
        if r.Ok? {
          WithoutSubsequence(cp, cp[j]);
          SubsequenceTransitive(r.value, relaxed, cp);
        }
      }
    }
  }

  /** The relaxed candidates fit the budget and come from the candidates. */
  lemma RelaxedFits(candidates: seq<Index>, disk: int, cost: set<Index> -> real, sizeOf: Index -> nat)
    requires Distinct(candidates)
    ensures var r := Relaxed(candidates, disk, cost, sizeOf);
      (r.Ok? ==> Distinct(r.value) && SubsequenceOf(r.value, candidates) && TotalSize(sizeOf, r.value) <= disk) &&
      (r == Err("TypeError") ==> disk < 0)
  {
    RelaxFromFits(candidates, TotalSize(sizeOf, candidates), Cost(cost, candidates), disk, cost, sizeOf);
  }

  /** Candidates that already fit are returned unchanged. */
  lemma RelaxedUnchangedWhenFitting(candidates: seq<Index>, disk: int, cost: set<Index> -> real, sizeOf: Index -> nat)
    requires TotalSize(sizeOf, candidates) <= disk
    ensures Relaxed(candidates, disk, cost, sizeOf) == Ok(candidates)
  {
  }
}
