/**
 * selection/algorithms/ibm_algorithm.py, second half: what the DB2 advisor
 * does with the recommendations. Each candidate's benefit is what the
 * queries recommending it save; the candidates are ranked by benefit per
 * byte (highest first), an entry whose index is a prefix of a better-ranked
 * one is merged into that one, and the ranking is packed into the disk
 * budget in order.
 *
 * Sizes are those the connector's size oracle gives for an index, the
 * value `store_size` stamps on the simulated index objects.
 */
module IbmBenefits {
  import opened Common
  import opened Indexes
  import opened Workloads
  import opened Search
  import opened WhatIf
  import opened IbmAlgorithm

  /** `IndexBenefit`: compared and hashed by index and benefit, like a value. */
  datatype IndexBenefit = IndexBenefit(index: Index, benefit: real)

  /**
   * `benefit_size_ratio`. Python raises ZeroDivisionError on a zero size;
   * the operations below fail before they would divide by zero, so the
   * value for that case is never used.
   */
  function RatioOf(sizeOf: Index -> nat, b: IndexBenefit): real {
    if sizeOf(b.index) == 0 then 0.0 else b.benefit / (sizeOf(b.index) as real)
  }

  /** `sorted(..., reverse=True, key=benefit_size_ratio)` compares like this, keeping ties in order. */
  predicate HigherRatio(sizeOf: Index -> nat, a: IndexBenefit, b: IndexBenefit) {
    RatioOf(sizeOf, a) >= RatioOf(sizeOf, b)
  }

  function ByRatio(sizeOf: Index -> nat): (IndexBenefit, IndexBenefit) -> bool {
    (a, b) => HigherRatio(sizeOf, a, b)
  }

  lemma ByRatioTotal(sizeOf: Index -> nat)
    ensures Total(ByRatio(sizeOf))
  {
    forall a: IndexBenefit, b: IndexBenefit ensures ByRatio(sizeOf)(a, b) || ByRatio(sizeOf)(b, a) {
      assert HigherRatio(sizeOf, a, b) || HigherRatio(sizeOf, b, a);
    }
  }

  /** No entry has a zero size, so every ratio can be computed. */
  predicate SizesNonZero(sizeOf: Index -> nat, bs: seq<IndexBenefit>) {
    forall b :: b in bs ==> sizeOf(b.index) != 0
  }

  // ------------------------------------------------------------ benefits

  /** What `ix` saves: the sum of cost without minus cost with over the results recommending it, in order. */
  function BenefitOf(ix: Index, results: seq<QueryResult>): real {
    if |results| == 0 then 0.0
    else
      var e := results[|results| - 1];
      BenefitOf(ix, results[..|results| - 1]) + (if ix in e.recommended then e.costWithout - e.costWith else 0.0)
  }

  /** `indexes_benefit` before sorting: one entry per candidate, in candidate order. */
  function Unranked(candidates: seq<Index>, results: seq<QueryResult>): (r: seq<IndexBenefit>)
    ensures |r| == |candidates|
  {
    seq(|candidates|, k requires 0 <= k < |candidates| => IndexBenefit(candidates[k], BenefitOf(candidates[k], results)))
  }

  /** What `_calculate_index_benefits` returns: the entries ranked by ratio, or the division's failure. */
  function IndexBenefits(candidates: seq<Index>, results: seq<QueryResult>, sizeOf: Index -> nat): Result<seq<IndexBenefit>> {
    var unranked := Unranked(candidates, results);
    if !SizesNonZero(sizeOf, unranked) then Err("ZeroDivisionError")
    else Ok(Sort(unranked, ByRatio(sizeOf)))
  }

  lemma BenefitStep(ix: Index, results: seq<QueryResult>, j: nat)
    requires j < |results|
    ensures BenefitOf(ix, results[..j + 1]) ==
      BenefitOf(ix, results[..j]) + (if ix in results[j].recommended then results[j].costWithout - results[j].costWith else 0.0)
  {
    assert results[..j + 1][..j] == results[..j];
  }

  /**
   * `_calculate_index_benefits`: for every candidate, sum the savings of
   * the results that recommend it; then rank by benefit per byte.
   */
  method CalculateIndexBenefits(candidates: seq<Index>, results: seq<QueryResult>, sizeOf: Index -> nat)
    returns (r: Result<seq<IndexBenefit>>)
    ensures r == IndexBenefits(candidates, results, sizeOf)
  {
    var unranked: seq<IndexBenefit> := [];
    var i := 0;
    while i < |candidates|
      invariant 0 <= i <= |candidates|
      invariant unranked == Unranked(candidates[..i], results)
    {
      var ix := candidates[i];
      var benefit := 0.0;
      var j := 0;
      while j < |results|
        invariant 0 <= j <= |results|
        invariant benefit == BenefitOf(ix, results[..j])
      {
        BenefitStep(ix, results, j);
        if ix in results[j].recommended {
          benefit := benefit + (results[j].costWithout - results[j].costWith);
        }
        j := j + 1;
      }
      assert results[..j] == results;
      unranked := unranked + [IndexBenefit(ix, benefit)];
      i := i + 1;
    }
    assert candidates[..i] == candidates;
    if exists b | b in unranked :: sizeOf(b.index) == 0 {
      return Err("ZeroDivisionError");
    }
    r := Ok(Sort(unranked, ByRatio(sizeOf)));
  }

  /** Ranking fails exactly when some candidate has size zero. */
  lemma IndexBenefitsFails(candidates: seq<Index>, results: seq<QueryResult>, sizeOf: Index -> nat)
    ensures IndexBenefits(candidates, results, sizeOf).Err? <==> exists ix :: ix in candidates && sizeOf(ix) == 0
    ensures IndexBenefits(candidates, results, sizeOf).Err? ==> IndexBenefits(candidates, results, sizeOf).error == "ZeroDivisionError"
  {
    var u := Unranked(candidates, results);
    if exists ix :: ix in candidates && sizeOf(ix) == 0 {
      var ix :| ix in candidates && sizeOf(ix) == 0;
      var k :| 0 <= k < |candidates| && candidates[k] == ix;
      assert u[k].index == ix;
    }
  }

  /**
   * Otherwise the ranking holds one entry per candidate, carrying that
   * candidate's benefit, ordered by descending benefit per byte.
   */
  lemma IndexBenefitsShape(candidates: seq<Index>, results: seq<QueryResult>, sizeOf: Index -> nat)
    requires forall ix :: ix in candidates ==> sizeOf(ix) != 0
    ensures var r := IndexBenefits(candidates, results, sizeOf);
      r.Ok? && SortedBy(r.value, ByRatio(sizeOf)) &&
      multiset(r.value) == multiset(Unranked(candidates, results)) &&
      forall b :: b in r.value ==> b.index in candidates && b.benefit == BenefitOf(b.index, results)
  {
    var u := Unranked(candidates, results);
    assert SizesNonZero(sizeOf, u) by {
      forall b | b in u ensures sizeOf(b.index) != 0 {
        var k :| 0 <= k < |u| && u[k] == b;
      }
    }
    ByRatioTotal(sizeOf);
    SortSorted(u, ByRatio(sizeOf));
    var s := Sort(u, ByRatio(sizeOf));
    forall b | b in s ensures b.index in candidates && b.benefit == BenefitOf(b.index, results) {
      assert b in multiset(s);
      assert b in u;
    }
  }

  /** A candidate no query recommends has benefit zero. */
  lemma {:induction false} BenefitOfNotRecommended(ix: Index, results: seq<QueryResult>)
    requires forall e :: e in results ==> ix !in e.recommended
    ensures BenefitOf(ix, results) == 0.0
  {
    if |results| > 0 {
      BenefitOfNotRecommended(ix, results[..|results| - 1]);
    }
  }

  /** Benefits add up over the results: those of a longer list extend those of its prefix. */
  lemma {:induction false} BenefitOfConcat(ix: Index, a: seq<QueryResult>, b: seq<QueryResult>)
    ensures BenefitOf(ix, a + b) == BenefitOf(ix, a) + BenefitOf(ix, b)
  {
    if |b| == 0 {
      assert a + b == a;
    } else {
      var init := b[..|b| - 1];
      assert (a + b)[..|a + b| - 1] == a + init;
      assert (a + b)[|a + b| - 1] == b[|b| - 1];
      BenefitOfConcat(ix, a, init);
    }
  }

  /** A recommendation that makes its query dearer gives a negative benefit. */
  lemma NegativeBenefit(ix: Index, q: Query)
    ensures BenefitOf(ix, [QueryResult(q, 100.0, 150.0, [ix])]) == -50.0
  {
    var rs := [QueryResult(q, 100.0, 150.0, [ix])];
    assert rs[..0] == [];
  }

  // ------------------------------------------------------------ subsumption

  /** The entries, with their benefits as merged so far, and the positions removed so far. */
  datatype Merge = Merge(bs: seq<IndexBenefit>, removed: set<nat>)

  /** The inner step for high position `i` and lower position `j`: absorb `j` when `i`'s index subsumes it. */
  function Absorb(m: Merge, i: nat, j: nat): (r: Merge)
    requires i < |m.bs| && j < |m.bs|
    ensures |r.bs| == |m.bs|
  {
    if j in m.removed then m
    else if Subsumes(m.bs[i].index, m.bs[j].index) then
      Merge(m.bs[i := m.bs[i].(benefit := m.bs[i].benefit + m.bs[j].benefit)], m.removed + {j})
    else m
  }

  /** The inner loop for high position `i` over the lower positions `i + 1 .. hi - 1`. */
  function AbsorbUpTo(m: Merge, i: nat, hi: nat): (r: Merge)
    requires i < hi <= |m.bs|
    ensures |r.bs| == |m.bs|
    decreases hi
  {
    if hi == i + 1 then m else Absorb(AbsorbUpTo(m, i, hi - 1), i, hi - 1)
  }

  /** The outer loop over the high positions `0 .. n - 1`; a removed position is skipped. */
  function Combine(bs: seq<IndexBenefit>, n: nat): (r: Merge)
    requires n <= |bs|
    ensures |r.bs| == |bs|
  {
    if n == 0 then Merge(bs, {})
    else
      var m := Combine(bs, n - 1);
      if n - 1 in m.removed then m else AbsorbUpTo(m, n - 1, |bs|)
  }

  /** The entries at the positions below `n` that are not removed, in order. */
  function Survivors(m: Merge, n: nat): seq<IndexBenefit>
    requires n <= |m.bs|
  {
    if n == 0 then []
    else Survivors(m, n - 1) + (if n - 1 in m.removed then [] else [m.bs[n - 1]])
  }

  /**
   * What `_combine_subsumed` returns. Fewer than two entries come back as
   * they are; otherwise the ratios are computed for the sortedness assertion,
   * which fails on unsorted input, and the survivors are ranked again.
   */
  function CombineSubsumedResult(input: seq<IndexBenefit>, sizeOf: Index -> nat): Result<seq<IndexBenefit>> {
    if |input| < 2 then Ok(input)
    else if !SizesNonZero(sizeOf, input) then Err("ZeroDivisionError")
    else if Sort(input, ByRatio(sizeOf)) != input then Err("AssertionError")
    else Ok(Sort(Survivors(Combine(input, |input|), |input|), ByRatio(sizeOf)))
  }

  lemma CombineStep(bs: seq<IndexBenefit>, i: nat)
    requires i < |bs|
    ensures Combine(bs, i + 1) == if i in Combine(bs, i).removed then Combine(bs, i) else AbsorbUpTo(Combine(bs, i), i, |bs|)
  {
  }

  /**
   * `_combine_subsumed`: for each entry not yet removed, absorb every later
   * entry not yet removed whose index its own index subsumes (adding that
   * entry's benefit to its own), then rank what is left.
   */
  method CombineSubsumed(input: seq<IndexBenefit>, sizeOf: Index -> nat) returns (r: Result<seq<IndexBenefit>>)
    ensures r == CombineSubsumedResult(input, sizeOf)
  {
    if |input| < 2 {
      return Ok(input);
    }
    if !SizesNonZero(sizeOf, input) {
      return Err("ZeroDivisionError");
    }
    if Sort(input, ByRatio(sizeOf)) != input {
      return Err("AssertionError");
    }
    var m := CombineAll(input);
    r := Ok(Sort(Survivors(m, |input|), ByRatio(sizeOf)));
  }

  /** The outer loop of `_combine_subsumed` over the high positions. */
  method CombineAll(input: seq<IndexBenefit>) returns (m: Merge)
    ensures m == Combine(input, |input|)
  {
    var bs := input;
    var removed: set<nat> := {};
    var i := 0;
    while i < |bs|
      invariant 0 <= i <= |input| && |bs| == |input|
      invariant Merge(bs, removed) == Combine(input, i)
    {
      CombineStep(input, i);
      if i in removed {
        i := i + 1;
        continue;
      }
      bs, removed := AbsorbSubsumed(bs, removed, i);
      i := i + 1;
    }
    m := Merge(bs, removed);
  }

  /** The inner loop of `_combine_subsumed` for the high position `i`. */
  method AbsorbSubsumed(bs: seq<IndexBenefit>, removed: set<nat>, i: nat) returns (bs': seq<IndexBenefit>, removed': set<nat>)
    requires i < |bs|
    ensures Merge(bs', removed') == AbsorbUpTo(Merge(bs, removed), i, |bs|)
  {
    bs', removed' := bs, removed;
    var j := i + 1;
    while j < |bs'|
      invariant i + 1 <= j <= |bs'| && |bs'| == |bs|
      invariant Merge(bs', removed') == AbsorbUpTo(Merge(bs, removed), i, j)
    {
      if j !in removed' && Subsumes(bs'[i].index, bs'[j].index) {
        bs' := bs'[i := bs'[i].(benefit := bs'[i].benefit + bs'[j].benefit)];
        removed' := removed' + {j};
      }
      j := j + 1;
    }
  }

  /** Merging changes benefits only, never an entry's index. */
  lemma {:induction false} AbsorbUpToIndexes(m: Merge, i: nat, hi: nat)
    requires i < hi <= |m.bs|
    ensures forall k :: 0 <= k < |m.bs| ==> AbsorbUpTo(m, i, hi).bs[k].index == m.bs[k].index
    decreases hi
  {
    if hi > i + 1 {
      AbsorbUpToIndexes(m, i, hi - 1);
    }
  }

  lemma {:induction false} CombineIndexes(bs: seq<IndexBenefit>, n: nat)
    requires n <= |bs|
    ensures forall k :: 0 <= k < |bs| ==> Combine(bs, n).bs[k].index == bs[k].index
  {
    if n > 0 {
      CombineIndexes(bs, n - 1);
      var m := Combine(bs, n - 1);
      if n - 1 !in m.removed {
        AbsorbUpToIndexes(m, n - 1, |bs|);
      }
    }
  }

  /** Positions removed by the inner loop for `i` lie after `i`, and `i` stays. */
  lemma {:induction false} AbsorbUpToRemoves(m: Merge, i: nat, hi: nat)
    requires i < hi <= |m.bs| && i !in m.removed
    ensures var r := AbsorbUpTo(m, i, hi);
      m.removed <= r.removed && i !in r.removed &&
      forall j :: j in r.removed && j !in m.removed ==> i < j < hi && Subsumes(m.bs[i].index, m.bs[j].index)
    decreases hi
  {
    if hi > i + 1 {
      AbsorbUpToRemoves(m, i, hi - 1);
      AbsorbUpToIndexes(m, i, hi - 1);
    }
  }

  /**
   * Every removed position lies after a position below `n` that survives
   * and whose index subsumes the removed one's.
   */
  ghost predicate AbsorbedByEarlier(bs: seq<IndexBenefit>, m: Merge, n: nat) {
    forall j :: j in m.removed ==> (j < |bs| &&
      exists i :: 0 <= i < n && i < j && i !in m.removed && Subsumes(bs[i].index, bs[j].index))
  }

  /** Removals only happen after the high position being processed. */
  lemma {:induction false} CombineRemovedAfter(bs: seq<IndexBenefit>, n: nat)
    requires n <= |bs|
    ensures forall j :: j in Combine(bs, n).removed ==> 0 < j < |bs|
    ensures AbsorbedByEarlier(bs, Combine(bs, n), n)
  {
    if n > 0 {
      CombineRemovedAfter(bs, n - 1);
      var m := Combine(bs, n - 1);
      if n - 1 !in m.removed {
        var r := AbsorbUpTo(m, n - 1, |bs|);
        AbsorbUpToRemoves(m, n - 1, |bs|);
        CombineIndexes(bs, n - 1);
        forall j | j in r.removed
          ensures j < |bs| && exists i :: 0 <= i < n && i < j && i !in r.removed && Subsumes(bs[i].index, bs[j].index)
        {
          if j in m.removed {
            var i :| 0 <= i < n - 1 && i < j && i !in m.removed && Subsumes(bs[i].index, bs[j].index);
            assert i !in r.removed;
          } else {
            assert n - 1 !in r.removed && Subsumes(bs[n - 1].index, bs[j].index);
          }
        }
      }
    }
  }

  /** After the inner loop for `i`, no later surviving position has an index `i` subsumes. */
  lemma {:induction false} AbsorbUpToMaximal(m: Merge, i: nat, hi: nat)
    requires i < hi <= |m.bs| && i !in m.removed
    ensures var r := AbsorbUpTo(m, i, hi);
      forall j :: i < j < hi && j !in r.removed ==> !Subsumes(m.bs[i].index, m.bs[j].index)
    decreases hi
  {
    if hi > i + 1 {
      AbsorbUpToMaximal(m, i, hi - 1);
      AbsorbUpToIndexes(m, i, hi - 1);
      AbsorbUpToRemoves(m, i, hi - 1);
    }
  }

  /** No surviving entry at a processed position subsumes a later surviving entry. */
  lemma {:induction false} CombineMaximal(bs: seq<IndexBenefit>, n: nat)
    requires n <= |bs|
    ensures var m := Combine(bs, n);
      forall i, j :: 0 <= i < n && i < j < |bs| && i !in m.removed && j !in m.removed ==>
        !Subsumes(bs[i].index, bs[j].index)
  {
    if n > 0 {
      CombineMaximal(bs, n - 1);
      var m := Combine(bs, n - 1);
      if n - 1 !in m.removed {
        var r := AbsorbUpTo(m, n - 1, |bs|);
        AbsorbUpToRemoves(m, n - 1, |bs|);
        AbsorbUpToMaximal(m, n - 1, |bs|);
        CombineIndexes(bs, n - 1);
      }
    }
  }

  /** The benefits at the positions below `n` that are not removed. */
  function KeptSum(m: Merge, n: nat): real
    requires n <= |m.bs|
  {
    if n == 0 then 0.0
    else KeptSum(m, n - 1) + (if n - 1 in m.removed then 0.0 else m.bs[n - 1].benefit)
  }

  /** Moving the benefit of a kept position `j` onto a kept position `i` and removing `j` keeps the sum. */
  lemma {:induction false} KeptSumMove(m: Merge, i: nat, j: nat, n: nat)
    requires i < |m.bs| && j < |m.bs| && i != j && i !in m.removed && j !in m.removed && n <= |m.bs|
    ensures var moved := Merge(m.bs[i := m.bs[i].(benefit := m.bs[i].benefit + m.bs[j].benefit)], m.removed + {j});
      KeptSum(moved, n) == KeptSum(m, n) +
        (if i < n then m.bs[j].benefit else 0.0) - (if j < n then m.bs[j].benefit else 0.0)
  {
    if n > 0 {
      KeptSumMove(m, i, j, n - 1);
    }
  }

  lemma {:induction false} AbsorbUpToKeeps(m: Merge, i: nat, hi: nat)
    requires i < hi <= |m.bs| && i !in m.removed
    ensures KeptSum(AbsorbUpTo(m, i, hi), |m.bs|) == KeptSum(m, |m.bs|)
    decreases hi
  {
    if hi > i + 1 {
      AbsorbUpToKeeps(m, i, hi - 1);
      AbsorbUpToRemoves(m, i, hi - 1);
      var p := AbsorbUpTo(m, i, hi - 1);
      var j := hi - 1;
      if j !in p.removed && Subsumes(p.bs[i].index, p.bs[j].index) {
        KeptSumMove(p, i, j, |m.bs|);
      }
    }
  }

  /** Merging moves benefit between entries but neither creates nor loses any. */
  lemma {:induction false} CombineKeeps(bs: seq<IndexBenefit>, n: nat)
    requires n <= |bs|
    ensures KeptSum(Combine(bs, n), |bs|) == KeptSum(Merge(bs, {}), |bs|)
  {
    if n > 0 {
      CombineKeeps(bs, n - 1);
      var m := Combine(bs, n - 1);
      if n - 1 !in m.removed {
        AbsorbUpToKeeps(m, n - 1, |bs|);
      }
    }
  }

  /** The total benefit of a list of entries. */
  function TotalBenefit(bs: seq<IndexBenefit>): real {
    if |bs| == 0 then 0.0 else TotalBenefit(bs[..|bs| - 1]) + bs[|bs| - 1].benefit
  }

  lemma {:induction false} SurvivorsTotal(m: Merge, n: nat)
    requires n <= |m.bs|
    ensures TotalBenefit(Survivors(m, n)) == KeptSum(m, n)
  {
    if n > 0 {
      SurvivorsTotal(m, n - 1);
      var s := Survivors(m, n - 1);
      if n - 1 !in m.removed {
        assert (s + [m.bs[n - 1]])[..|s|] == s;
      } else {
        assert s + [] == s;
      }
    }
  }

  lemma {:induction false} KeptSumNone(bs: seq<IndexBenefit>, n: nat)
    requires n <= |bs|
    ensures KeptSum(Merge(bs, {}), n) == TotalBenefit(bs[..n])
  {
    if n > 0 {
      KeptSumNone(bs, n - 1);
      assert bs[..n][..n - 1] == bs[..n - 1];
    }
  }

  /** A survivor is one of the merged entries, at a position that is not removed. */
  lemma {:induction false} SurvivorsFrom(m: Merge, n: nat, b: IndexBenefit) returns (k: nat)
    requires n <= |m.bs| && b in Survivors(m, n)
    ensures k < n && k !in m.removed && m.bs[k] == b
  {
    if b in Survivors(m, n - 1) {
      k := SurvivorsFrom(m, n - 1, b);
    } else {
      k := n - 1;
    }
  }

  /**
   * On sorted input with non-zero sizes, `_combine_subsumed` returns the
   * surviving entries ranked by ratio. Each is an input entry's index with
   * its merged benefit; no kept entry subsumes a kept entry after it; every
   * dropped entry was subsumed by a kept entry before it; and the benefits
   * add up to the input's.
   */
  lemma CombineSubsumedShape(input: seq<IndexBenefit>, sizeOf: Index -> nat)
    requires |input| >= 2 && SizesNonZero(sizeOf, input) && SortedBy(input, ByRatio(sizeOf))
    ensures var m := Combine(input, |input|);
      var survivors := Survivors(m, |input|);
      CombineSubsumedResult(input, sizeOf) == Ok(Sort(survivors, ByRatio(sizeOf))) &&
      SortedBy(Sort(survivors, ByRatio(sizeOf)), ByRatio(sizeOf)) &&
      TotalBenefit(survivors) == TotalBenefit(input) &&
      (forall b :: b in survivors ==> exists k :: 0 <= k < |input| && b.index == input[k].index) &&
      (forall i, j :: 0 <= i < j < |input| && i !in m.removed && j !in m.removed ==> !Subsumes(input[i].index, input[j].index)) &&
      (forall j :: j in m.removed ==> (0 < j < |input| &&
        exists i :: 0 <= i < j && i !in m.removed && Subsumes(input[i].index, input[j].index)))
  {
    var n := |input|;
    var m := Combine(input, n);
    ByRatioTotal(sizeOf);
    SortFixedIffSorted(input, ByRatio(sizeOf));
    SortSorted(Survivors(m, n), ByRatio(sizeOf));
    SurvivorsTotal(m, n);
    CombineKeeps(input, n);
    KeptSumNone(input, n);
    assert input[..n] == input;
    CombineIndexes(input, n);
    forall b | b in Survivors(m, n) ensures exists k :: 0 <= k < n && b.index == input[k].index {
      var k := SurvivorsFrom(m, n, b);
      assert b.index == input[k].index;
    }
    CombineMaximal(input, n);
    CombineRemovedAfter(input, n);
  }

  /** `_combine_subsumed` fails exactly on unsorted or zero-sized input of at least two entries. */
  lemma CombineSubsumedFails(input: seq<IndexBenefit>, sizeOf: Index -> nat)
    ensures CombineSubsumedResult(input, sizeOf).Err? <==>
      |input| >= 2 && (!SizesNonZero(sizeOf, input) || !SortedBy(input, ByRatio(sizeOf)))
    ensures |input| >= 2 && !SizesNonZero(sizeOf, input) ==> CombineSubsumedResult(input, sizeOf) == Err("ZeroDivisionError")
    ensures |input| >= 2 && SizesNonZero(sizeOf, input) && !SortedBy(input, ByRatio(sizeOf)) ==>
      CombineSubsumedResult(input, sizeOf) == Err("AssertionError")
  {
    ByRatioTotal(sizeOf);
    SortFixedIffSorted(input, ByRatio(sizeOf));
  }

  // ------------------------------------------------------------ the knapsack

  /** The total size of some entries. */
  function Usage(sizeOf: Index -> nat, bs: seq<IndexBenefit>): nat {
    if |bs| == 0 then 0 else Usage(sizeOf, bs[..|bs| - 1]) + sizeOf(bs[|bs| - 1].index)
  }

  /** The knapsack of `_calculate_best_indexes`: in ranking order, take an entry when it still fits. */
  function Pack(bs: seq<IndexBenefit>, sizeOf: Index -> nat, budget: int): seq<IndexBenefit> {
    if |bs| == 0 then []
    else
      var rest := Pack(bs[..|bs| - 1], sizeOf, budget);
      var b := bs[|bs| - 1];
      if Usage(sizeOf, rest) + sizeOf(b.index) <= budget then rest + [b] else rest
  }

  lemma UsageAppend(sizeOf: Index -> nat, bs: seq<IndexBenefit>, b: IndexBenefit)
    ensures Usage(sizeOf, bs + [b]) == Usage(sizeOf, bs) + sizeOf(b.index)
  {
    assert (bs + [b])[..|bs|] == bs;
  }

  /** The packed entries fit the budget (a negative budget takes nothing). */
  lemma {:induction false} PackFits(bs: seq<IndexBenefit>, sizeOf: Index -> nat, budget: int)
    ensures Usage(sizeOf, Pack(bs, sizeOf, budget)) <= budget || (budget < 0 && Pack(bs, sizeOf, budget) == [])
  {
    if |bs| > 0 {
      var rest := Pack(bs[..|bs| - 1], sizeOf, budget);
      PackFits(bs[..|bs| - 1], sizeOf, budget);
      UsageAppend(sizeOf, rest, bs[|bs| - 1]);
    }
  }

  /** The packed entries are taken in ranking order. */
  lemma {:induction false} PackSubsequence(bs: seq<IndexBenefit>, sizeOf: Index -> nat, budget: int)
    ensures SubsequenceOf(Pack(bs, sizeOf, budget), bs)
  {
    if |bs| > 0 {
      var init := bs[..|bs| - 1];
      var b := bs[|bs| - 1];
      PackSubsequence(init, sizeOf, budget);
      assert bs == init + [b];
      var rest := Pack(init, sizeOf, budget);
      SubsequenceExtend(rest, init, b);
    }
  }

  /** An entry that was left out does not fit beside what was packed. */
  lemma {:induction false} PackMaximal(bs: seq<IndexBenefit>, sizeOf: Index -> nat, budget: int)
    ensures forall b :: b in bs && b !in Pack(bs, sizeOf, budget) ==>
      Usage(sizeOf, Pack(bs, sizeOf, budget)) + sizeOf(b.index) > budget
  {
    if |bs| > 0 {
      var init := bs[..|bs| - 1];
      var last := bs[|bs| - 1];
      var rest := Pack(init, sizeOf, budget);
      PackMaximal(init, sizeOf, budget);
      UsageAppend(sizeOf, rest, last);
      assert bs == init + [last];
    }
  }

  lemma PackStep(bs: seq<IndexBenefit>, sizeOf: Index -> nat, budget: int, k: nat)
    requires k < |bs|
    ensures Pack(bs[..k + 1], sizeOf, budget) ==
      var rest := Pack(bs[..k], sizeOf, budget);
      if Usage(sizeOf, rest) + sizeOf(bs[k].index) <= budget then rest + [bs[k]] else rest
  {
    assert bs[..k + 1][..k] == bs[..k];
  }

  /**
   * The knapsack loop of `_calculate_best_indexes`: an entry is appended
   * when `disk_usage` plus its size stays within the budget.
   */
  method SelectWithinBudget(items: seq<IndexBenefit>, sizeOf: Index -> nat, budget: int)
    returns (selected: seq<IndexBenefit>)
    ensures selected == Pack(items, sizeOf, budget)
  {
    selected := [];
    var diskUsage := 0;
    var k := 0;
    while k < |items|
      invariant 0 <= k <= |items|
      invariant selected == Pack(items[..k], sizeOf, budget)
      invariant diskUsage == Usage(sizeOf, selected)
    {
      PackStep(items, sizeOf, budget, k);
      var b := items[k];
      if diskUsage + sizeOf(b.index) <= budget {
        UsageAppend(sizeOf, selected, b);
        selected := selected + [b];
        diskUsage := diskUsage + sizeOf(b.index);
      }
      k := k + 1;
    }
    assert items[..k] == items;
  }

  /** The indexes of the chosen entries. */
  function IndexesOfBenefits(bs: seq<IndexBenefit>): (r: seq<Index>)
    ensures |r| == |bs| && forall k :: 0 <= k < |bs| ==> r[k] == bs[k].index
  {
    seq(|bs|, k requires 0 <= k < |bs| => bs[k].index)
  }

  /**
   * `_calculate_best_indexes` after the recommendations are in: rank, merge
   * and pack; then `_try_variations` when its time limit is positive, which
   * `vary` stands for (it depends on the clock and on random sampling).
   */
  function BestIndexes(candidates: seq<Index>, results: seq<QueryResult>, sizeOf: Index -> nat, s: Settings,
                       vary: (seq<IndexBenefit>, seq<IndexBenefit>) -> seq<IndexBenefit>): Result<seq<Index>>
  {
    var ranked := IndexBenefits(candidates, results, sizeOf);
    if ranked.Err? then Err(ranked.error)
    else
      var merged := CombineSubsumedResult(ranked.value, sizeOf);
      if merged.Err? then Err(merged.error)
      else
        Ok(IndexesOfBenefits(Chosen(merged.value, sizeOf, s, vary)))
  }

  /** The packed entries, varied when the time limit is positive. */
  function Chosen(merged: seq<IndexBenefit>, sizeOf: Index -> nat, s: Settings,
                  vary: (seq<IndexBenefit>, seq<IndexBenefit>) -> seq<IndexBenefit>): seq<IndexBenefit>
  {
    var packed := Pack(merged, sizeOf, s.diskConstraint);
    if s.secondsLimit > 0 then vary(packed, merged) else packed
  }

  /**
   * `_calculate_best_indexes`: the recommendations, their ranking and
   * merging, and the knapsack loop that accumulates `disk_usage`.
   */
  method CalculateBestIndexes(whatIf: WhatIfIndexCreation, w: Workload, s: Settings,
                              vary: (seq<IndexBenefit>, seq<IndexBenefit>) -> seq<IndexBenefit>)
    returns (r: Result<seq<Index>>)
    requires whatIf.Valid()
    modifies whatIf, whatIf.connector
    ensures whatIf.Valid()
    ensures var trace := Trace(OracleOf(whatIf.connector), old(StateOf(whatIf)), w.queries, s.maxIndexColumns);
      r == BestIndexes(Union(trace), Dict(trace), whatIf.connector.sizeOf, s, vary)
    ensures StateOf(whatIf) == Final(old(StateOf(whatIf)), w.queries, s.maxIndexColumns)
  {
    var results, candidates := ExploitVirtualIndexes(whatIf, w, s.maxIndexColumns);
    var sizeOf := whatIf.connector.sizeOf;
    var ranked := CalculateIndexBenefits(candidates, results, sizeOf);
    if ranked.Err? {
      return Err(ranked.error);
    }
    var merged := CombineSubsumed(ranked.value, sizeOf);
    if merged.Err? {
      return Err(merged.error);
    }
    var items := merged.value;
    var selected := SelectWithinBudget(items, sizeOf, s.diskConstraint);
    if s.secondsLimit > 0 {
      selected := vary(selected, items);
    }
    r := Ok(IndexesOfBenefits(selected));
  }

  /**
   * What `_try_variations` (lines 197-244) guarantees, whatever the clock
   * and the random samples: the entries it returns are a set drawn from
   * the merged ranking, and, started from a selection within the budget,
   * they stay within it, since it starts from that selection, a variation
   * drops entries and then adds one only while the size stays within
   * `disk_constraint` (lines 231-235), and only such variations replace the
   * selection.
   */
  ghost predicate VariesWithinBudget(vary: (seq<IndexBenefit>, seq<IndexBenefit>) -> seq<IndexBenefit>,
                                     sizeOf: Index -> nat, budget: int)
  {
    forall packed, all {:trigger vary(packed, all)} ::
      (forall b :: b in packed ==> b in all) && Usage(sizeOf, packed) <= budget ==>
        Distinct(vary(packed, all)) && (forall b :: b in vary(packed, all) ==> b in all) &&
        Usage(sizeOf, vary(packed, all)) <= budget
  }

  /** The sizes of the chosen entries are the sizes of their indexes. */
  lemma {:induction false} UsageOfIndexes(sizeOf: Index -> nat, bs: seq<IndexBenefit>)
    ensures Usage(sizeOf, bs) == TotalSize(sizeOf, IndexesOfBenefits(bs))
  {
    if |bs| > 0 {
      UsageOfIndexes(sizeOf, bs[..|bs| - 1]);
      assert IndexesOfBenefits(bs)[..|bs| - 1] == IndexesOfBenefits(bs[..|bs| - 1]);
    }
  }

  /**
   * The chosen entries come from the merged ranking and fit a non-negative
   * budget, with or without variations.
   */
  lemma ChosenFit(merged: seq<IndexBenefit>, sizeOf: Index -> nat, s: Settings,
                  vary: (seq<IndexBenefit>, seq<IndexBenefit>) -> seq<IndexBenefit>)
    requires s.diskConstraint >= 0
    requires VariesWithinBudget(vary, sizeOf, s.diskConstraint)
    ensures TotalSize(sizeOf, IndexesOfBenefits(Chosen(merged, sizeOf, s, vary))) <= s.diskConstraint
    ensures forall ix :: ix in IndexesOfBenefits(Chosen(merged, sizeOf, s, vary)) ==> ix in IndexesOfBenefits(merged)
  {
    var packed := Pack(merged, sizeOf, s.diskConstraint);
    PackFits(merged, sizeOf, s.diskConstraint);
    PackSubsequence(merged, sizeOf, s.diskConstraint);
    SubsequenceElements(packed, merged);
    var chosen := Chosen(merged, sizeOf, s, vary);
    assert (forall b :: b in chosen ==> b in merged) && Usage(sizeOf, chosen) <= s.diskConstraint;
    UsageOfIndexes(sizeOf, chosen);
    forall ix | ix in IndexesOfBenefits(chosen)
      ensures ix in IndexesOfBenefits(merged)
    {
      var k :| 0 <= k < |chosen| && IndexesOfBenefits(chosen)[k] == ix;
      assert chosen[k] in merged;
      var j :| 0 <= j < |merged| && merged[j] == chosen[k];
      assert IndexesOfBenefits(merged)[j] == ix;
    }
  }

  /**
   * The chosen indexes come from the merged ranking and their sizes stay
   * within a non-negative disk budget, with or without variations; without
   * them they are the entries packed from the ranking in its order.
   */
  lemma BestIndexesFit(candidates: seq<Index>, results: seq<QueryResult>, sizeOf: Index -> nat, s: Settings,
                       vary: (seq<IndexBenefit>, seq<IndexBenefit>) -> seq<IndexBenefit>)
    requires s.diskConstraint >= 0
    requires VariesWithinBudget(vary, sizeOf, s.diskConstraint)
    requires BestIndexes(candidates, results, sizeOf, s, vary).Ok?
    ensures TotalSize(sizeOf, BestIndexes(candidates, results, sizeOf, s, vary).value) <= s.diskConstraint
    ensures forall ix :: ix in BestIndexes(candidates, results, sizeOf, s, vary).value ==>
      ix in IndexesOfBenefits(CombineSubsumedResult(IndexBenefits(candidates, results, sizeOf).value, sizeOf).value)
    ensures s.secondsLimit <= 0 ==>
      var merged := CombineSubsumedResult(IndexBenefits(candidates, results, sizeOf).value, sizeOf).value;
      BestIndexes(candidates, results, sizeOf, s, vary).value == IndexesOfBenefits(Pack(merged, sizeOf, s.diskConstraint)) &&
      SubsequenceOf(Pack(merged, sizeOf, s.diskConstraint), merged)
  {
    var merged := CombineSubsumedResult(IndexBenefits(candidates, results, sizeOf).value, sizeOf).value;
    ChosenFit(merged, sizeOf, s, vary);
    PackSubsequence(merged, sizeOf, s.diskConstraint);
  }
}
