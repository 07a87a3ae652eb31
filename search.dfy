/**
 * Building blocks the search strategies share: the running-minimum scan
 * that every strategy writes out as a loop, and the enumerations of
 * `itertools.combinations` and `itertools.permutations` they call.
 */
module Search {
  import opened Common

  /** The best entry seen so far: none yet, or a position and its cost. */
  datatype Best = NoBest | Best(at: nat, cost: real)

  /**
   * Whether `c` replaces the best so far. `zeroUnset` models a guard written
   * as `not lowest_cost or cost < lowest_cost`, where a best cost of 0 is
   * falsy and is replaced like a missing one; without it the guard is
   * `best is None or cost < best`.
   */
  predicate Improves(b: Best, c: real, zeroUnset: bool) {
    b.NoBest? || (zeroUnset && b.cost == 0.0) || c < b.cost
  }

  /** The outcome of scanning `costs` in order with the guard above. */
  function RunningMin(costs: seq<real>, zeroUnset: bool): (b: Best)
    ensures b.NoBest? <==> |costs| == 0
    ensures b.Best? ==> b.at < |costs| && b.cost == costs[b.at]
  {
    if |costs| == 0 then NoBest
    else
      var b := RunningMin(costs[..|costs| - 1], zeroUnset);
      if Improves(b, costs[|costs| - 1], zeroUnset) then Best(|costs| - 1, costs[|costs| - 1]) else b
  }

  /**
   * Unless a cost of 0 shows up under the falsy guard, the scan picks the
   * first position of the minimum: no cost is lower, and every earlier one
   * is higher.
   */
  lemma {:induction false} RunningMinIsFirstMinimum(costs: seq<real>, zeroUnset: bool)
    requires |costs| > 0
    requires zeroUnset ==> forall k :: 0 <= k < |costs| ==> costs[k] != 0.0
    ensures var b := RunningMin(costs, zeroUnset);
      (forall k :: 0 <= k < |costs| ==> b.cost <= costs[k]) &&
      (forall k :: 0 <= k < b.at ==> b.cost < costs[k])
  {
    var n := |costs| - 1;
    var init := costs[..n];
    if n > 0 {
      RunningMinIsFirstMinimum(init, zeroUnset);
    }
  }

  /** Under the falsy guard a best cost of 0 is given up for a later, higher one. */
  lemma RunningMinZeroIsReplaced()
    ensures RunningMin([0.0, 5.0], true) == Best(1, 5.0)
    ensures RunningMin([0.0, 5.0], false) == Best(0, 0.0)
  {
    assert [0.0, 5.0][..1] == [0.0];
    assert [0.0][..0] == [];
  }

  /** The scan only looks at what it has seen: extending the input by an entry is one more step. */
  lemma RunningMinStep(costs: seq<real>, c: real, zeroUnset: bool)
    ensures RunningMin(costs + [c], zeroUnset) ==
      var b := RunningMin(costs, zeroUnset);
      if Improves(b, c, zeroUnset) then Best(|costs|, c) else b
  {
    assert (costs + [c])[..|costs|] == costs;
  }

  /** `itertools.combinations(s, k)`: the k-element position-ordered selections, in lexicographic order of positions. */
  function Combinations<T>(s: seq<T>, k: nat): (r: seq<seq<T>>)
    ensures forall i :: 0 <= i < |r| ==> |r[i]| == k
    decreases |s|
  {
    if k == 0 then [[]]
    else if |s| == 0 then []
    else
      var rest := Combinations(s[1..], k - 1);
      seq(|rest|, i requires 0 <= i < |rest| => [s[0]] + rest[i]) + Combinations(s[1..], k)
  }

  /** `s` keeps the relative order of elements of `t` (a subsequence). */
  predicate SubsequenceOf<T(==)>(c: seq<T>, t: seq<T>)
    decreases |t|
  {
    if |c| == 0 then true
    else if |t| == 0 then false
    else if c[0] == t[0] then SubsequenceOf(c[1..], t[1..])
    else SubsequenceOf(c, t[1..])
  }

  lemma {:induction false} SubsequenceElements<T>(c: seq<T>, t: seq<T>)
    requires SubsequenceOf(c, t)
    ensures forall x :: x in c ==> x in t
    ensures Distinct(t) ==> Distinct(c)
    decreases |t|
  {
    if |c| > 0 {
      if c[0] == t[0] {
        SubsequenceElements(c[1..], t[1..]);
        assert c == [c[0]] + c[1..];
        assert t == [t[0]] + t[1..];
        if Distinct(t) {
          forall i, j | 0 <= i < j < |c| ensures c[i] != c[j] {
            if i == 0 {
              assert c[j] in c[1..];
              assert c[j] in t[1..];
              var m :| 0 <= m < |t[1..]| && t[1..][m] == c[j];
              assert t[m + 1] == c[j];
            } else {
              assert c[i] == c[1..][i - 1] && c[j] == c[1..][j - 1];
            }
          }
        }
      } else {
        SubsequenceElements(c, t[1..]);
        assert forall x :: x in t[1..] ==> x in t;
        assert Distinct(t) ==> Distinct(t[1..]) by {
          if Distinct(t) {
            forall i, j | 0 <= i < j < |t[1..]| ensures t[1..][i] != t[1..][j] {
              assert t[1..][i] == t[i + 1] && t[1..][j] == t[j + 1];
            }
          }
        }
      }
    }
  }

  /** Every combination is a k-element subsequence of the input. */
  lemma CombinationsAreSubsequences<T>(s: seq<T>, k: nat)
    ensures forall c :: c in Combinations(s, k) ==> |c| == k && SubsequenceOf(c, s)
  {
    forall c | c in Combinations(s, k) ensures |c| == k && SubsequenceOf(c, s) {
      CombinationMember(s, k, c);
    }
  }

  /** One combination is a k-element subsequence of the input. */
  lemma {:induction false} CombinationMember<T>(s: seq<T>, k: nat, c: seq<T>)
    requires c in Combinations(s, k)
    ensures |c| == k && SubsequenceOf(c, s)
    decreases |s|
  {
    if k > 0 && |s| > 0 {
      var rest := Combinations(s[1..], k - 1);
      var heads := seq(|rest|, i requires 0 <= i < |rest| => [s[0]] + rest[i]);
      assert Combinations(s, k) == heads + Combinations(s[1..], k);
      if c in heads {
        var i :| 0 <= i < |heads| && heads[i] == c;
        assert rest[i] in rest;
        CombinationMember(s[1..], k - 1, rest[i]);
        assert c[1..] == rest[i];
      } else {
        CombinationMember(s[1..], k, c);
        SkipHead(c, s);
      }
    }
  }

  lemma SkipHead<T>(c: seq<T>, s: seq<T>)
    requires |s| > 0 && SubsequenceOf(c, s[1..])
    ensures SubsequenceOf(c, s)
    decreases |s| + |c|
  {
    if |c| > 0 && c[0] == s[0] {
      SkipHeadTail(c, s[1..]);
    }
  }

  /** A subsequence of `t` without its head is a subsequence of `t`. */
  lemma {:induction false} SkipHeadTail<T>(c: seq<T>, t: seq<T>)
    requires |c| > 0 && SubsequenceOf(c, t)
    ensures SubsequenceOf(c[1..], t)
    decreases |t| + |c|
  {
    if c[0] == t[0] {
      if |c| > 1 {
        SkipHeadTail(c[1..], t[1..]);
        SkipHead(c[1..], t);
      }
    } else {
      SkipHeadTail(c, t[1..]);
      SkipHead(c[1..], t);
    }
  }

  /** The number of combinations is the binomial coefficient. */
  function Choose(n: nat, k: nat): nat {
    if k == 0 then 1
    else if n == 0 then 0
    else Choose(n - 1, k - 1) + Choose(n - 1, k)
  }

  lemma {:induction false} CombinationsCount<T>(s: seq<T>, k: nat)
    ensures |Combinations(s, k)| == Choose(|s|, k)
    decreases |s|
  {
    if k > 0 && |s| > 0 {
      CombinationsCount(s[1..], k - 1);
      CombinationsCount(s[1..], k);
    }
  }

  /** `s` with the element at position `i` removed. */
  function RemoveAt<T>(s: seq<T>, i: nat): (r: seq<T>)
    requires i < |s|
    ensures |r| == |s| - 1
  {
    s[..i] + s[i + 1..]
  }

  /** The permutations starting with the element at position `i`, for positions `i` onwards. */
  function PermutationsFrom<T>(s: seq<T>, k: nat, i: nat): (r: seq<seq<T>>)
    requires k > 0 && i <= |s|
    ensures forall j :: 0 <= j < |r| ==> |r[j]| == k
    decreases |s|, 0, |s| - i
  {
    if i == |s| then []
    else
      var tails := Permutations(RemoveAt(s, i), k - 1);
      seq(|tails|, j requires 0 <= j < |tails| => [s[i]] + tails[j]) + PermutationsFrom(s, k, i + 1)
  }

  /** `itertools.permutations(s, k)`: the k-length orderings of distinct positions, in lexicographic order of positions. */
  function Permutations<T>(s: seq<T>, k: nat): (r: seq<seq<T>>)
    ensures forall j :: 0 <= j < |r| ==> |r[j]| == k
    decreases |s|, 1
  {
    if k == 0 then [[]] else PermutationsFrom(s, k, 0)
  }

  /** The falling factorial n (n-1) ... (n-k+1), the number of k-permutations of n items. */
  function Falling(n: nat, k: nat): nat {
    if k == 0 then 1 else if n == 0 then 0 else n * Falling(n - 1, k - 1)
  }

  lemma {:induction false} PermutationsFromCount<T>(s: seq<T>, k: nat, i: nat)
    requires k > 0 && i <= |s|
    ensures |PermutationsFrom(s, k, i)| == if |s| == 0 then 0 else (|s| - i) * Falling(|s| - 1, k - 1)
    decreases |s|, 0, |s| - i
  {
    if i < |s| {
      var tails := Permutations(RemoveAt(s, i), k - 1);
      var f := Falling(|s| - 1, k - 1);
      PermutationsCount(RemoveAt(s, i), k - 1);
      PermutationsFromCount(s, k, i + 1);
      var led := seq(|tails|, j requires 0 <= j < |tails| => [s[i]] + tails[j]);
      assert PermutationsFrom(s, k, i) == led + PermutationsFrom(s, k, i + 1);
      assert |led| == f;
      MultiplyOneMore(|s| - i - 1, f);
    }
  }

  lemma MultiplyOneMore(n: nat, f: nat)
    ensures f + n * f == (n + 1) * f
  {
  }

  lemma {:induction false} PermutationsCount<T>(s: seq<T>, k: nat)
    ensures |Permutations(s, k)| == Falling(|s|, k)
    decreases |s|, 1
  {
    if k > 0 {
      PermutationsFromCount(s, k, 0);
      if |s| == 0 {
        assert |Permutations(s, k)| == 0;
      }
    }
  }

  lemma RemoveAtElements<T>(s: seq<T>, i: nat)
    requires i < |s| && Distinct(s)
    ensures Distinct(RemoveAt(s, i))
    ensures forall x :: x in RemoveAt(s, i) <==> x in s && x != s[i]
  {
    var r := RemoveAt(s, i);
    forall a, b | 0 <= a < b < |r| ensures r[a] != r[b] {
      var a' := if a < i then a else a + 1;
      var b' := if b < i then b else b + 1;
      assert r[a] == s[a'] && r[b] == s[b'];
    }
    forall x ensures x in r <==> x in s && x != s[i] {
      if x in r {
        var a :| 0 <= a < |r| && r[a] == x;
        var a' := if a < i then a else a + 1;
        assert r[a] == s[a'];
      }
      if x in s && x != s[i] {
        var a :| 0 <= a < |s| && s[a] == x;
        if a < i { assert r[a] == x; } else { assert r[a - 1] == x; }
      }
    }
  }

  /** Over distinct elements every permutation repeats nothing and uses only elements of the input. */
  lemma {:induction false} PermutationsSound<T>(s: seq<T>, k: nat)
    requires Distinct(s)
    ensures forall p :: p in Permutations(s, k) ==> Distinct(p) && forall x :: x in p ==> x in s
    decreases |s|, 1
  {
    if k > 0 {
      PermutationsFromSound(s, k, 0);
    }
  }

  lemma {:induction false} PermutationsFromSound<T>(s: seq<T>, k: nat, i: nat)
    requires Distinct(s) && k > 0 && i <= |s|
    ensures forall p :: p in PermutationsFrom(s, k, i) ==>
      Distinct(p) && (forall x :: x in p ==> x in s) && p[0] in s[i..]
    decreases |s|, 0, |s| - i
  {
    if i < |s| {
      var rest := RemoveAt(s, i);
      RemoveAtElements(s, i);
      PermutationsSound(rest, k - 1);
      PermutationsFromSound(s, k, i + 1);
      var tails := Permutations(rest, k - 1);
      var heads := seq(|tails|, j requires 0 <= j < |tails| => [s[i]] + tails[j]);
      assert PermutationsFrom(s, k, i) == heads + PermutationsFrom(s, k, i + 1);
      forall p | p in PermutationsFrom(s, k, i)
        ensures Distinct(p) && (forall x :: x in p ==> x in s) && p[0] in s[i..]
      {
        if p in heads {
          var j :| 0 <= j < |heads| && heads[j] == p;
          var t := tails[j];
          assert t in tails;
          assert p == [s[i]] + t;
          assert s[i] !in t;
          forall x | x in p ensures x in s {
            if x != s[i] { assert x in t; }
          }
          forall a, b | 0 <= a < b < |p| ensures p[a] != p[b] {
            if a == 0 {
              assert p[b] == t[b - 1];
            } else {
              assert p[a] == t[a - 1] && p[b] == t[b - 1];
            }
          }
          assert s[i..][0] == s[i];
        } else {
          assert p in PermutationsFrom(s, k, i + 1);
          assert forall x :: x in s[i + 1..] ==> x in s[i..];
        }
      }
    }
  }

  /** Over distinct elements no permutation is listed twice. */
  lemma {:induction false} PermutationsDistinct<T>(s: seq<T>, k: nat)
    requires Distinct(s)
    ensures Distinct(Permutations(s, k))
    decreases |s|, 1
  {
    if k > 0 {
      PermutationsFromDistinct(s, k, 0);
    }
  }

  lemma {:induction false} PermutationsFromDistinct<T>(s: seq<T>, k: nat, i: nat)
    requires Distinct(s) && k > 0 && i <= |s|
    ensures Distinct(PermutationsFrom(s, k, i))
    decreases |s|, 0, |s| - i
  {
    if i < |s| {
      var rest := RemoveAt(s, i);
      RemoveAtElements(s, i);
      PermutationsDistinct(rest, k - 1);
      PermutationsFromDistinct(s, k, i + 1);
      PermutationsFromSound(s, k, i + 1);
      var tails := Permutations(rest, k - 1);
      var heads := seq(|tails|, j requires 0 <= j < |tails| => [s[i]] + tails[j]);
      var later := PermutationsFrom(s, k, i + 1);
      assert PermutationsFrom(s, k, i) == heads + later;
      forall a, b | 0 <= a < b < |heads| + |later| ensures (heads + later)[a] != (heads + later)[b] {
        if b < |heads| {
          assert heads[a][1..] == tails[a] && heads[b][1..] == tails[b];
        } else if a < |heads| {
          var q := later[b - |heads|];
          assert q in later;
          assert q[0] in s[i + 1..];
          var m :| 0 <= m < |s[i + 1..]| && s[i + 1..][m] == q[0];
          assert s[i + 1 + m] == q[0];
          assert heads[a][0] == s[i];
        } else {
          assert (heads + later)[a] == later[a - |heads|];
          assert (heads + later)[b] == later[b - |heads|];
        }
      }
    }
  }

  /** Every repetition-free k-length sequence over the input is one of its permutations. */
  lemma {:induction false} PermutationsComplete<T>(s: seq<T>, k: nat, p: seq<T>)
    requires Distinct(s) && Distinct(p) && |p| == k
    requires forall x :: x in p ==> x in s
    ensures p in Permutations(s, k)
    decreases |s|, 1
  {
    if k > 0 {
      assert p[0] in p;
      var i :| 0 <= i < |s| && s[i] == p[0];
      var rest := RemoveAt(s, i);
      RemoveAtElements(s, i);
      var t := p[1..];
      assert p == [p[0]] + t;
      forall x | x in t ensures x in rest {
        var b :| 0 <= b < |t| && t[b] == x;
        assert p[b + 1] == x;
      }
      forall a, b | 0 <= a < b < |t| ensures t[a] != t[b] {
        assert t[a] == p[a + 1] && t[b] == p[b + 1];
      }
      PermutationsComplete(rest, k - 1, t);
      PermutationsFromContains(s, k, 0, i, t);
    }
  }

  lemma {:induction false} PermutationsFromContains<T>(s: seq<T>, k: nat, i0: nat, i: nat, t: seq<T>)
    requires k > 0 && i0 <= i < |s|
    requires t in Permutations(RemoveAt(s, i), k - 1)
    ensures [s[i]] + t in PermutationsFrom(s, k, i0)
    decreases i - i0
  {
    var tails := Permutations(RemoveAt(s, i0), k - 1);
    var heads := seq(|tails|, j requires 0 <= j < |tails| => [s[i0]] + tails[j]);
    assert PermutationsFrom(s, k, i0) == heads + PermutationsFrom(s, k, i0 + 1);
    if i0 == i {
      var j :| 0 <= j < |tails| && tails[j] == t;
      assert heads[j] == [s[i]] + t;
    } else {
      PermutationsFromContains(s, k, i0 + 1, i, t);
    }
  }

  lemma RemoveAtShape<T(!new)>(s: seq<T>, i: nat)
    requires i < |s| && Distinct(s)
    ensures Distinct(RemoveAt(s, i))
    ensures SetOf(RemoveAt(s, i)) == SetOf(s) - {s[i]}
    ensures SubsequenceOf(RemoveAt(s, i), s)
  {
    RemoveAtElements(s, i);
    RemoveAtSubsequence(s, i);
  }

  lemma {:induction false} RemoveAtSubsequence<T>(s: seq<T>, i: nat)
    requires i < |s|
    ensures SubsequenceOf(RemoveAt(s, i), s)
  {
    if i == 0 {
      assert RemoveAt(s, 0) == s[1..];
      SubsequenceOfSelf(s[1..]);
      SkipHead(s[1..], s);
    } else {
      RemoveAtSubsequence(s[1..], i - 1);
      assert RemoveAt(s, i) == [s[0]] + RemoveAt(s[1..], i - 1);
      assert RemoveAt(s, i)[1..] == RemoveAt(s[1..], i - 1);
    }
  }

  lemma {:induction false} SubsequenceOfSelf<T>(s: seq<T>)
    ensures SubsequenceOf(s, s)
  {
    if |s| > 0 { SubsequenceOfSelf(s[1..]); }
  }

  lemma {:induction false} SubsequenceTransitive<T>(a: seq<T>, b: seq<T>, c: seq<T>)
    requires SubsequenceOf(a, b) && SubsequenceOf(b, c)
    ensures SubsequenceOf(a, c)
    decreases |c|
  {
    if |a| > 0 && |b| > 0 && |c| > 0 {
      if b[0] == c[0] {
        if a[0] == b[0] {
          SubsequenceTransitive(a[1..], b[1..], c[1..]);
        } else {
          SubsequenceTransitive(a, b[1..], c[1..]);
        }
      } else {
        SubsequenceTransitive(a, b, c[1..]);
        if a[0] == c[0] {
          SkipHeadTail(a, c[1..]);
        }
      }
    }
  }

  /** The combinations of sizes lo, lo+1, ..., lo+count-1, size by size, as nested `for` loops produce them. */
  function CombinationRounds<T>(s: seq<T>, lo: nat, count: nat): seq<seq<T>>
  {
    if count == 0 then [] else CombinationRounds(s, lo, count - 1) + Combinations(s, lo + count - 1)
  }

  /** Every trial is a subsequence of the input whose size is in the scanned range. */
  lemma CombinationRoundsShape<T>(s: seq<T>, lo: nat, count: nat)
    ensures forall t :: t in CombinationRounds(s, lo, count) ==>
      lo <= |t| < lo + count && SubsequenceOf(t, s)
  {
    forall t | t in CombinationRounds(s, lo, count) ensures lo <= |t| < lo + count && SubsequenceOf(t, s) {
      RoundsMember(s, lo, count, t);
    }
  }

  /** One trial of the rounds is a subsequence of the input of a size in the scanned range. */
  lemma {:induction false} RoundsMember<T>(s: seq<T>, lo: nat, count: nat, t: seq<T>)
    requires t in CombinationRounds(s, lo, count)
    ensures lo <= |t| < lo + count && SubsequenceOf(t, s)
  {
    if count > 0 {
      var prev, last := CombinationRounds(s, lo, count - 1), Combinations(s, lo + count - 1);
      assert CombinationRounds(s, lo, count) == prev + last;
      if t in prev {
        RoundsMember(s, lo, count - 1, t);
      } else {
        assert t in last;
        CombinationMember(s, lo + count - 1, t);
      }
    }
  }

  /** The cost of every trial, each taken as a set. */
  function TrialCosts<T(!new)>(trials: seq<seq<T>>, cost: set<T> -> real): (r: seq<real>)
    ensures |r| == |trials|
    ensures forall i :: 0 <= i < |r| ==> r[i] == cost(SetOf(trials[i]))
  {
    seq(|trials|, i requires 0 <= i < |trials| => cost(SetOf(trials[i])))
  }

  lemma TrialCostsAppend<T(!new)>(trials: seq<seq<T>>, t: seq<T>, cost: set<T> -> real)
    ensures TrialCosts(trials + [t], cost) == TrialCosts(trials, cost) + [cost(SetOf(t))]
  {
  }

  /** Costing one more trial updates the running minimum by the guard. */
  lemma TrialStep<T(!new)>(trials: seq<seq<T>>, t: seq<T>, b: Best, cost: set<T> -> real)
    requires b == RunningMin(TrialCosts(trials, cost), true)
    ensures var c := cost(SetOf(t));
      RunningMin(TrialCosts(trials + [t], cost), true) == if Improves(b, c, true) then Best(|trials|, c) else b
  {
    RunningMinStep(TrialCosts(trials, cost), cost(SetOf(t)), true);
    TrialCostsAppend(trials, t, cost);
  }

  lemma ExtendedByNext<S>(a: seq<S>, s: seq<S>, j: nat)
    requires j < |s|
    ensures a + s[..j + 1] == (a + s[..j]) + [s[j]]
  {
    assert s[..j + 1] == s[..j] + [s[j]];
  }

  /** One round of the naive enumeration: the inner loop over the combinations of one size. */
  method ScanRound<T(==,!new)>(combis: seq<seq<T>>, trials0: seq<seq<T>>, b0: Best, cost: set<T> -> real)
    returns (b: Best, trials: seq<seq<T>>)
    requires b0 == RunningMin(TrialCosts(trials0, cost), true)
    ensures trials == trials0 + combis
    ensures b == RunningMin(TrialCosts(trials, cost), true)
  {
    b, trials := b0, trials0;
    for j := 0 to |combis|
      invariant trials == trials0 + combis[..j]
      invariant b == RunningMin(TrialCosts(trials, cost), true)
    {
      var c := cost(SetOf(combis[j]));
      TrialStep(trials, combis[j], b, cost);
      if Improves(b, c, true) {
        b := Best(|trials|, c);
      }
      ExtendedByNext(trials0, combis, j);
      trials := trials + [combis[j]];
    }
    assert combis[..|combis|] == combis;
  }

  /**
   * The nested loops of a naive enumeration: every combination of sizes
   * lo .. lo+count-1 is costed, keeping the running minimum under
   * `not lowest_cost or cost < lowest_cost`.
   */
  method ScanCombinations<T(==,!new)>(s: seq<T>, lo: nat, count: nat, cost: set<T> -> real)
    returns (b: Best, trials: seq<seq<T>>)
    ensures trials == CombinationRounds(s, lo, count)
    ensures b == RunningMin(TrialCosts(trials, cost), true)
  {
    b := NoBest;
    trials := [];
    var k := 0;
    while k < count
      invariant 0 <= k <= count
      invariant trials == CombinationRounds(s, lo, k)
      invariant b == RunningMin(TrialCosts(trials, cost), true)
    {
      var combis := Combinations(s, lo + k);
      assert CombinationRounds(s, lo, k + 1) == CombinationRounds(s, lo, k) + combis;
      b, trials := ScanRound(combis, trials, b, cost);
      k := k + 1;
    }
  }

  /** The cost of adding each candidate, in turn, to the current set. */
  function AdditionCosts<T(!new)>(current: seq<T>, candidates: seq<T>, cost: set<T> -> real): (r: seq<real>)
    ensures |r| == |candidates|
    ensures forall k :: 0 <= k < |r| ==> r[k] == cost(SetOf(current) + {candidates[k]})
  {
    seq(|candidates|, k requires 0 <= k < |candidates| => cost(SetOf(current) + {candidates[k]}))
  }

  /** The candidates a greedy step may add: those `fits` lets through next to `current`, in order. */
  function Fitting<T(!new)>(current: seq<T>, candidates: seq<T>, fits: (seq<T>, T) -> bool): (r: seq<T>)
    ensures forall x :: x in r <==> x in candidates && fits(current, x)
    ensures |r| <= |candidates|
  {
    if |candidates| == 0 then []
    else
      var rest := Fitting(current, candidates[..|candidates| - 1], fits);
      var x := candidates[|candidates| - 1];
      assert candidates == candidates[..|candidates| - 1] + [x];
      if fits(current, x) then rest + [x] else rest
  }

  /** The candidates up to `i + 1` that fit: one more when the one at `i` fits. */
  lemma FittingNext<T(!new)>(current: seq<T>, candidates: seq<T>, fits: (seq<T>, T) -> bool, i: nat)
    requires i < |candidates|
    ensures Fitting(current, candidates[..i + 1], fits) ==
      var pool := Fitting(current, candidates[..i], fits);
      if fits(current, candidates[i]) then pool + [candidates[i]] else pool
  {
    assert candidates[..i + 1][..i] == candidates[..i];
  }

  /**
   * One turn of the inner loop of a greedy step, for the candidate `x`
   * after the fitting candidates `pool`: when `fits` lets it through, it is
   * costed next to the current indexes and becomes the best when it
   * improves on it.
   */
  method AdditionTurn<T(!new)>(current: seq<T>, ghost pool: seq<T>, x: T, cost: set<T> -> real, fits: (seq<T>, T) -> bool,
                               b: Best, chosen: T, taken: nat)
    returns (b': Best, chosen': T, taken': nat)
    requires taken == |pool| && b == RunningMin(AdditionCosts(current, pool, cost), false)
    requires b.Best? ==> chosen == pool[b.at]
    ensures var next := if fits(current, x) then pool + [x] else pool;
      taken' == |next| && b' == RunningMin(AdditionCosts(current, next, cost), false) &&
      (b'.Best? ==> chosen' == next[b'.at])
  {
    b', chosen', taken' := b, chosen, taken;
    if fits(current, x) {
      var c := cost(SetOf(current) + {x});
      assert AdditionCosts(current, pool + [x], cost) == AdditionCosts(current, pool, cost) + [c];
      RunningMinStep(AdditionCosts(current, pool, cost), c, false);
      if Improves(b, c, false) {
        b', chosen' := Best(taken, c), x;
      }
      taken' := taken + 1;
    }
  }

  /**
   * The inner loop of a greedy step: every candidate is costed next to the
   * current indexes; those `fits` rejects are skipped, and the running
   * minimum is kept under `best is None or cost < best`.
   */
  method ScanAdditions<T(!new)>(current: seq<T>, candidates: seq<T>, cost: set<T> -> real, fits: (seq<T>, T) -> bool)
    returns (b: Best, chosen: T)
    requires |candidates| > 0
    ensures b == RunningMin(AdditionCosts(current, Fitting(current, candidates, fits), cost), false)
    ensures b.Best? ==> chosen == Fitting(current, candidates, fits)[b.at]
  {
    b := NoBest;
    chosen := candidates[0];
    var taken := 0;
    var i := 0;
    while i < |candidates|
      invariant 0 <= i <= |candidates|
      invariant taken == |Fitting(current, candidates[..i], fits)|
      invariant b == RunningMin(AdditionCosts(current, Fitting(current, candidates[..i], fits), cost), false)
      invariant b.Best? ==> chosen == Fitting(current, candidates[..i], fits)[b.at]
    {
      FittingNext(current, candidates, fits, i);
      b, chosen, taken := AdditionTurn(current, Fitting(current, candidates[..i], fits), candidates[i], cost, fits, b, chosen, taken);
      i := i + 1;
    }
    assert candidates[..i] == candidates;
  }

  /** What a greedy enumeration returns: the indexes chosen and their cost. */
  datatype Outcome<T> = Outcome(indexes: seq<T>, cost: Option<real>)

  /** The best one-index extension of `current` among the fitting candidates. */
  function GreedyPick<T(!new)>(current: seq<T>, candidates: seq<T>, cost: set<T> -> real, fits: (seq<T>, T) -> bool): (b: Best)
    ensures b.NoBest? <==> |Fitting(current, candidates, fits)| == 0
    ensures b.Best? ==>
      b.at < |Fitting(current, candidates, fits)| &&
      b.cost == cost(SetOf(current) + {Fitting(current, candidates, fits)[b.at]})
  {
    RunningMin(AdditionCosts(current, Fitting(current, candidates, fits), cost), false)
  }

  /** The bound on the number of indexes is reached (None is an unbounded `math.inf`). */
  predicate AtBound<T>(current: seq<T>, bound: Option<int>) {
    bound.Some? && |current| >= bound.value
  }

  /**
   * The recursive greedy enumeration shared by the AutoAdmin and DTA
   * strategies: the current and candidate sets must be disjoint; stop at
   * the bound; otherwise add the cheapest fitting candidate when it is
   * strictly cheaper than the current cost. Comparing with a missing
   * current cost is a TypeError.
   */
  function Greedy<T(==,!new)>(current: seq<T>, currentCost: Option<real>, candidates: seq<T>, bound: Option<int>,
                              cost: set<T> -> real, fits: (seq<T>, T) -> bool): Result<Outcome<T>>
    decreases |candidates|
  {
    if SetOf(current) * SetOf(candidates) != {} then Err("AssertionError")
    else if AtBound(current, bound) then Ok(Outcome(current, currentCost))
    else
      var b := GreedyPick(current, candidates, cost, fits);
      if b.NoBest? then Ok(Outcome(current, currentCost))
      else if currentCost.None? then Err("TypeError")
      else if b.cost < currentCost.value then
        var chosen := Fitting(current, candidates, fits)[b.at];
        assert chosen in candidates;
        WithoutShorter(candidates, chosen);
        Greedy(current + [chosen], Some(b.cost), Without(candidates, chosen), bound, cost, fits)
      else Ok(Outcome(current, currentCost))
  }

  /** The recursive method the source writes: one greedy step per call. */
  method EnumerateGreedy<T(==,!new)>(current: seq<T>, currentCost: Option<real>, candidates: seq<T>, bound: Option<int>,
                                     cost: set<T> -> real, fits: (seq<T>, T) -> bool)
    returns (r: Result<Outcome<T>>)
    ensures r == Greedy(current, currentCost, candidates, bound, cost, fits)
    decreases |candidates|
  {
    if SetOf(current) * SetOf(candidates) != {} {
      return Err("AssertionError");
    }
    if bound.Some? && |current| >= bound.value {
      return Ok(Outcome(current, currentCost));
    }
    if |candidates| == 0 {
      return Ok(Outcome(current, currentCost));
    }
    var b, chosen := ScanAdditions(current, candidates, cost, fits);
    if b.Best? {
      if currentCost.None? {
        return Err("TypeError");
      }
      if b.cost < currentCost.value {
        assert chosen in candidates;
        WithoutShorter(candidates, chosen);
        r := EnumerateGreedy(current + [chosen], Some(b.cost), Without(candidates, chosen), bound, cost, fits);
        return;
      }
    }
    r := Ok(Outcome(current, currentCost));
  }

  /** One unfolding of the enumeration, case by case. */
  lemma GreedyUnfold<T(!new)>(current: seq<T>, currentCost: Option<real>, candidates: seq<T>, bound: Option<int>,
                              cost: set<T> -> real, fits: (seq<T>, T) -> bool)
    requires SetOf(current) * SetOf(candidates) == {}
    ensures var r := Greedy(current, currentCost, candidates, bound, cost, fits);
      var b := GreedyPick(current, candidates, cost, fits);
      (AtBound(current, bound) || b.NoBest? ==> r == Ok(Outcome(current, currentCost))) &&
      (!AtBound(current, bound) && b.Best? && currentCost.None? ==> r == Err("TypeError")) &&
      (!AtBound(current, bound) && b.Best? && currentCost.Some? && b.cost >= currentCost.value ==>
        r == Ok(Outcome(current, currentCost))) &&
      (!AtBound(current, bound) && b.Best? && currentCost.Some? && b.cost < currentCost.value ==>
        var chosen := Fitting(current, candidates, fits)[b.at];
        chosen in candidates &&
        r == Greedy(current + [chosen], Some(b.cost), Without(candidates, chosen), bound, cost, fits))
  {
  }

  /** Moving a candidate into the current set keeps both repetition-free and disjoint. */
  lemma GreedyStepKeepsDisjoint<T(!new)>(current: seq<T>, candidates: seq<T>, chosen: T)
    requires Distinct(current) && Distinct(candidates)
    requires SetOf(current) * SetOf(candidates) == {}
    requires chosen in candidates
    ensures Distinct(current + [chosen]) && Distinct(Without(candidates, chosen))
    ensures SetOf(current + [chosen]) * SetOf(Without(candidates, chosen)) == {}
    ensures SetOf(current + [chosen]) + SetOf(Without(candidates, chosen)) <= SetOf(current) + SetOf(candidates)
  {
    var next := current + [chosen];
    assert chosen !in SetOf(current) by {
      assert chosen in SetOf(candidates);
      assert chosen !in SetOf(current) * SetOf(candidates);
    }
    forall i, j | 0 <= i < j < |next| ensures next[i] != next[j] {
      if j == |current| {
        assert next[i] in current;
      } else {
        assert next[i] == current[i] && next[j] == current[j];
      }
    }
    forall x | x in next ensures x !in Without(candidates, chosen) {
      if x != chosen {
        assert x in SetOf(current);
        assert x !in SetOf(current) * SetOf(candidates);
      }
    }
  }

  /**
   * Over repetition-free, disjoint current and candidate sets only a
   * missing current cost can make the greedy enumeration fail, and the
   * result extends the current indexes by candidates without repeating
   * any, within the bound.
   */
  lemma {:induction false} GreedyExtends<T(!new)>(current: seq<T>, currentCost: Option<real>, candidates: seq<T>, bound: Option<int>,
                                        cost: set<T> -> real, fits: (seq<T>, T) -> bool)
    requires Distinct(current) && Distinct(candidates)
    requires SetOf(current) * SetOf(candidates) == {}
    ensures var r := Greedy(current, currentCost, candidates, bound, cost, fits);
      (r.Err? ==> r.error == "TypeError" && currentCost.None?) &&
      (r.Ok? ==>
        var out := r.value.indexes;
        Distinct(out) && |current| <= |out| && out[..|current|] == current &&
        SetOf(out) <= SetOf(current) + SetOf(candidates) &&
        (bound.Some? && |current| <= bound.value ==> |out| <= bound.value))
    decreases |candidates|
  {
    if !AtBound(current, bound) {
      var b := GreedyPick(current, candidates, cost, fits);
      if b.Best? && currentCost.Some? && b.cost < currentCost.value {
        var chosen := Fitting(current, candidates, fits)[b.at];
        WithoutShorter(candidates, chosen);
        GreedyStepKeepsDisjoint(current, candidates, chosen);
        var next := current + [chosen];
        GreedyExtends(next, Some(b.cost), Without(candidates, chosen), bound, cost, fits);
        var r := Greedy(next, Some(b.cost), Without(candidates, chosen), bound, cost, fits);
        if r.Ok? {
          ExtendsStep(current, chosen, candidates, Without(candidates, chosen), bound, r.value.indexes);
        }
      }
    }
  }

  /** The step of the above: what extends `current + [chosen]` extends `current`. */
  lemma ExtendsStep<T(!new)>(current: seq<T>, chosen: T, candidates: seq<T>, rest: seq<T>, bound: Option<int>, out: seq<T>)
    requires chosen in candidates && SetOf(rest) <= SetOf(candidates) && !AtBound(current, bound)
    requires var next := current + [chosen];
      |next| <= |out| && out[..|next|] == next && SetOf(out) <= SetOf(next) + SetOf(rest) &&
      (bound.Some? && |next| <= bound.value ==> |out| <= bound.value)
    ensures |current| <= |out| && out[..|current|] == current &&
      SetOf(out) <= SetOf(current) + SetOf(candidates) &&
      (bound.Some? && |current| <= bound.value ==> |out| <= bound.value)
  {
    var next := current + [chosen];
    assert out[..|current|] == out[..|next|][..|current|] == current;
    assert SetOf(next) == SetOf(current) + {chosen};
  }

  /**
   * The cost the enumeration returns: the input cost when nothing was
   * added; otherwise the cost of the final set, strictly below the input
   * cost.
   */
  lemma {:induction false} GreedyLowersCost<T(!new)>(current: seq<T>, currentCost: Option<real>, candidates: seq<T>, bound: Option<int>,
                                           cost: set<T> -> real, fits: (seq<T>, T) -> bool)
    requires Distinct(current) && Distinct(candidates)
    requires SetOf(current) * SetOf(candidates) == {}
    ensures var r := Greedy(current, currentCost, candidates, bound, cost, fits);
      r.Ok? ==>
        (|r.value.indexes| == |current| ==> r.value.cost == currentCost) &&
        (|r.value.indexes| > |current| ==>
          currentCost.Some? && r.value.cost.Some? &&
          r.value.cost.value < currentCost.value && r.value.cost.value == cost(SetOf(r.value.indexes)))
    decreases |candidates|
  {
    GreedyUnfold(current, currentCost, candidates, bound, cost, fits);
    var b := GreedyPick(current, candidates, cost, fits);
    if !AtBound(current, bound) && b.Best? && currentCost.Some? && b.cost < currentCost.value {
      var chosen := Fitting(current, candidates, fits)[b.at];
      WithoutShorter(candidates, chosen);
      GreedyStepKeepsDisjoint(current, candidates, chosen);
      var next := current + [chosen];
      var rest := Without(candidates, chosen);
      var r := Greedy(next, Some(b.cost), rest, bound, cost, fits);
      assert r == Greedy(current, currentCost, candidates, bound, cost, fits);
      GreedyLowersCost(next, Some(b.cost), rest, bound, cost, fits);
      GreedyExtends(next, Some(b.cost), rest, bound, cost, fits);
      if r.Ok? {
        var out := r.value.indexes;
        assert |out| >= |next|;
        if |out| == |next| {
          assert out == next by { assert out[..|next|] == next; }
          assert SetOf(next) == SetOf(current) + {chosen};
          assert r.value.cost == Some(b.cost);
        } else {
          assert r.value.cost.value < b.cost;
        }
      }
    }
  }

  /** Every element from position `start` on fits next to the elements before it. */
  predicate FitsInOrder<T>(out: seq<T>, start: nat, fits: (seq<T>, T) -> bool) {
    forall k :: start <= k < |out| ==> fits(out[..k], out[k])
  }

  /** Every index the enumeration adds fits next to the indexes chosen before it. */
  lemma {:induction false} GreedyAddsFitting<T(!new)>(current: seq<T>, currentCost: Option<real>, candidates: seq<T>, bound: Option<int>,
                                            cost: set<T> -> real, fits: (seq<T>, T) -> bool)
    requires Distinct(current) && Distinct(candidates)
    requires SetOf(current) * SetOf(candidates) == {}
    ensures var r := Greedy(current, currentCost, candidates, bound, cost, fits);
      r.Ok? ==> FitsInOrder(r.value.indexes, |current|, fits)
    decreases |candidates|
  {
    GreedyUnfold(current, currentCost, candidates, bound, cost, fits);
    var b := GreedyPick(current, candidates, cost, fits);
    if !AtBound(current, bound) && b.Best? && currentCost.Some? && b.cost < currentCost.value {
      var chosen := Fitting(current, candidates, fits)[b.at];
      WithoutShorter(candidates, chosen);
      GreedyStepKeepsDisjoint(current, candidates, chosen);
      var next := current + [chosen];
      var rest := Without(candidates, chosen);
      var r := Greedy(next, Some(b.cost), rest, bound, cost, fits);
      assert r == Greedy(current, currentCost, candidates, bound, cost, fits);
      GreedyAddsFitting(next, Some(b.cost), rest, bound, cost, fits);
      GreedyExtends(next, Some(b.cost), rest, bound, cost, fits);
      if r.Ok? {
        var out := r.value.indexes;
        assert out[..|next|] == next;
        assert out[..|current|] == current by {
          assert out[..|current|] == out[..|next|][..|current|];
        }
        assert out[|current|] == chosen by {
          assert out[|current|] == out[..|next|][|current|];
        }
        assert fits(current, chosen) by {
          assert chosen in Fitting(current, candidates, fits);
        }
        forall k | |current| <= k < |out| ensures fits(out[..k], out[k]) {
          if k == |current| {
            assert out[..k] == current;
          } else {
            assert FitsInOrder(out, |next|, fits);
          }
        }
      }
    }
  }

  /**
   * When the enumeration stops before the bound, no fitting candidate it
   * left out would have made the result strictly cheaper.
   */
  lemma {:induction false} GreedyStopsAtLocalMinimum<T(!new)>(current: seq<T>, currentCost: Option<real>, candidates: seq<T>,
                                                    bound: Option<int>, cost: set<T> -> real, fits: (seq<T>, T) -> bool,
                                                    c: T)
    requires Distinct(current) && Distinct(candidates)
    requires SetOf(current) * SetOf(candidates) == {}
    requires c in candidates
    ensures var r := Greedy(current, currentCost, candidates, bound, cost, fits);
      r.Ok? && r.value.cost.Some? && !AtBound(r.value.indexes, bound) &&
      c !in r.value.indexes && fits(r.value.indexes, c) ==>
        r.value.cost.value <= cost(SetOf(r.value.indexes) + {c})
    decreases |candidates|
  {
    if !AtBound(current, bound) {
      var pool := Fitting(current, candidates, fits);
      var costs := AdditionCosts(current, pool, cost);
      var b := GreedyPick(current, candidates, cost, fits);
      if b.Best? && currentCost.Some? && b.cost < currentCost.value {
        var chosen := pool[b.at];
        WithoutShorter(candidates, chosen);
        GreedyStepKeepsDisjoint(current, candidates, chosen);
        var next := current + [chosen];
        if c != chosen {
          GreedyStopsAtLocalMinimum(next, Some(b.cost), Without(candidates, chosen), bound, cost, fits, c);
        } else {
          GreedyExtends(next, Some(b.cost), Without(candidates, chosen), bound, cost, fits);
          var r := Greedy(next, Some(b.cost), Without(candidates, chosen), bound, cost, fits);
          if r.Ok? {
            var out := r.value.indexes;
            assert out[..|next|] == next;
            assert out[|current|] == out[..|next|][|current|] == c;
            assert c in out;
          }
        }
      } else if b.Best? && currentCost.Some? && fits(current, c) {
        assert c in pool;
        var k :| 0 <= k < |pool| && pool[k] == c;
        RunningMinIsFirstMinimum(costs, false);
        assert costs[k] == cost(SetOf(current) + {c});
      }
    }
  }

  lemma {:induction false} ChooseBounds(n: nat, k: nat)
    ensures k > n ==> Choose(n, k) == 0
    ensures k <= n ==> Choose(n, k) > 0
  {
    if k > 0 && n > 0 {
      ChooseBounds(n - 1, k - 1);
      ChooseBounds(n - 1, k);
    }
  }

  /** Some combination is tried exactly when a size in the range fits the input. */
  lemma {:induction false} CombinationRoundsEmpty<T>(s: seq<T>, lo: nat, count: nat)
    ensures |CombinationRounds(s, lo, count)| == 0 <==> count == 0 || lo > |s|
  {
    if count > 0 {
      var k := lo + count - 1;
      CombinationRoundsEmpty(s, lo, count - 1);
      CombinationsCount(s, k);
      ChooseBounds(|s|, k);
      var prev, last := CombinationRounds(s, lo, count - 1), Combinations(s, k);
      assert |CombinationRounds(s, lo, count)| == |prev| + |last|;
      EmptyRounds(|prev|, |last|, |s|, lo, count);
    }
  }

  /** The counting step of the above, on the lengths alone. */
  lemma EmptyRounds(prev: nat, last: nat, n: nat, lo: nat, count: nat)
    requires count > 0
    requires prev == 0 <==> count - 1 == 0 || lo > n
    requires lo + count - 1 > n ==> last == 0
    requires lo + count - 1 <= n ==> last > 0
    ensures prev + last == 0 <==> lo > n
  {
  }

  /**
   * A naive enumeration: the combination of the scanned sizes with the
   * lowest cost under `not lowest_cost or cost < lowest_cost`, or nothing
   * (and no cost) when no combination was tried.
   */
  function NaiveChoice<T(!new)>(s: seq<T>, lo: nat, count: nat, cost: set<T> -> real): Outcome<T>
  {
    var trials := CombinationRounds(s, lo, count);
    var b := RunningMin(TrialCosts(trials, cost), true);
    if b.NoBest? then Outcome([], None) else Outcome(trials[b.at], Some(b.cost))
  }

  method EnumerateNaive<T(==,!new)>(s: seq<T>, lo: nat, count: nat, cost: set<T> -> real) returns (r: Outcome<T>)
    ensures r == NaiveChoice(s, lo, count, cost)
  {
    var b, trials := ScanCombinations(s, lo, count, cost);
    if b.NoBest? {
      r := Outcome([], None);
    } else {
      r := Outcome(trials[b.at], Some(b.cost));
    }
  }

  /**
   * The naive choice has a cost exactly when some size in the range fits;
   * it is then a subsequence of the input of a size in the range, with the
   * cost of that set.
   */
  lemma NaiveChoiceShape<T(!new)>(s: seq<T>, lo: nat, count: nat, cost: set<T> -> real)
    ensures var r := NaiveChoice(s, lo, count, cost);
      (r.cost.None? <==> count == 0 || lo > |s|) &&
      (r.cost.None? ==> r.indexes == []) &&
      (r.cost.Some? ==>
        lo <= |r.indexes| < lo + count && SubsequenceOf(r.indexes, s) &&
        r.cost.value == cost(SetOf(r.indexes)))
  {
    var trials := CombinationRounds(s, lo, count);
    CombinationRoundsEmpty(s, lo, count);
    CombinationRoundsShape(s, lo, count);
    var b := RunningMin(TrialCosts(trials, cost), true);
    if b.Best? {
      assert trials[b.at] in trials;
    }
  }

  /** With no trial costing exactly 0, the naive choice is no more expensive than any combination tried. */
  lemma NaiveChoiceIsCheapest<T(!new)>(s: seq<T>, lo: nat, count: nat, cost: set<T> -> real, t: seq<T>)
    requires forall u :: u in CombinationRounds(s, lo, count) ==> cost(SetOf(u)) != 0.0
    requires t in CombinationRounds(s, lo, count)
    ensures var r := NaiveChoice(s, lo, count, cost);
      r.cost.Some? && r.cost.value <= cost(SetOf(t))
  {
    var trials := CombinationRounds(s, lo, count);
    var costs := TrialCosts(trials, cost);
    var k :| 0 <= k < |trials| && trials[k] == t;
    forall i | 0 <= i < |costs| ensures costs[i] != 0.0 {
      assert trials[i] in trials;
    }
    RunningMinIsFirstMinimum(costs, true);
  }

  /** Appending the same element to both sides, or to the longer one only, keeps a subsequence. */
  lemma {:induction false} SubsequenceExtend<T>(a: seq<T>, b: seq<T>, x: T)
    requires SubsequenceOf(a, b)
    ensures SubsequenceOf(a, b + [x]) && SubsequenceOf(a + [x], b + [x])
    decreases |b|
  {
    if |b| == 0 {
      assert ([x] + [])[1..] == [];
    } else {
      assert (b + [x])[1..] == b[1..] + [x];
      assert (b + [x])[0] == b[0];
      if |a| == 0 {
        SubsequenceExtend(a, b[1..], x);
        assert a + [x] == [x];
        if b[0] == x {
          assert [x][1..] == [];
        }
      } else if a[0] == b[0] {
        SubsequenceExtend(a[1..], b[1..], x);
        assert (a + [x])[1..] == a[1..] + [x];
      } else {
        SubsequenceExtend(a, b[1..], x);
      }
    }
  }

  /** A comprehension filter keeps the order of its input. */
  lemma {:induction false} FilterSubsequence<T(!new)>(s: seq<T>, p: T -> bool)
    ensures SubsequenceOf(Filter(s, p), s)
  {
    if |s| == 0 {
    } else {
      var init := s[..|s| - 1];
      FilterSubsequence(init, p);
      SubsequenceExtend(Filter(init, p), init, s[|s| - 1]);
      assert s == init + [s[|s| - 1]];
    }
  }

  /** The naive phase hands the greedy phase repetition-free, disjoint sets drawn from the candidates. */
  lemma NaivePhaseShape<T(!new)>(candidates: seq<T>, lo: nat, count: nat, cost: set<T> -> real)
    requires Distinct(candidates)
    ensures var naive := NaiveChoice(candidates, lo, count, cost);
      var rest := Minus(candidates, naive.indexes);
      Distinct(naive.indexes) && Distinct(rest) &&
      SetOf(naive.indexes) * SetOf(rest) == {} &&
      SetOf(naive.indexes) + SetOf(rest) == SetOf(candidates) &&
      (naive.cost.None? <==> count == 0 || lo > |candidates|) &&
      (naive.cost.None? ==> naive.indexes == []) &&
      (naive.cost.Some? ==>
        lo <= |naive.indexes| < lo + count && naive.cost.value == cost(SetOf(naive.indexes)))
  {
    var naive := NaiveChoice(candidates, lo, count, cost);
    NaiveChoiceShape(candidates, lo, count, cost);
    if naive.cost.Some? {
      SubsequenceElements(naive.indexes, candidates);
    }
    var rest := Minus(candidates, naive.indexes);
    forall x | x in SetOf(naive.indexes) ensures x !in SetOf(rest) {
    }
  }

  /**
   * A naive phase followed by the greedy phase over the remaining
   * candidates: only a missing naive cost can make it fail (TypeError);
   * the result extends the naive choice by candidates without repeating
   * any, grows past the bound only if the naive choice already did, and
   * costs what its set costs, never more than the naive choice.
   */
  lemma NaiveThenGreedy<T(!new)>(candidates: seq<T>, lo: nat, count: nat, bound: int, cost: set<T> -> real,
                                 fits: (seq<T>, T) -> bool)
    requires Distinct(candidates)
    ensures var naive := NaiveChoice(candidates, lo, count, cost);
      var r := Greedy(naive.indexes, naive.cost, Minus(candidates, naive.indexes), Some(bound), cost, fits);
      (r.Err? ==> r.error == "TypeError" && naive.cost.None?) &&
      (r.Ok? ==>
        var out := r.value.indexes;
        Distinct(out) && SetOf(out) <= SetOf(candidates) && |naive.indexes| <= |out| &&
        (|out| > |naive.indexes| ==> |out| <= bound) &&
        (r.value.cost.None? <==> naive.cost.None?) &&
        (r.value.cost.None? ==> out == []) &&
        (r.value.cost.Some? ==>
          r.value.cost.value == cost(SetOf(out)) && r.value.cost.value <= naive.cost.value))
  {
    var naive := NaiveChoice(candidates, lo, count, cost);
    var rest := Minus(candidates, naive.indexes);
    NaivePhaseShape(candidates, lo, count, cost);
    GreedyExtends(naive.indexes, naive.cost, rest, Some(bound), cost, fits);
    GreedyLowersCost(naive.indexes, naive.cost, rest, Some(bound), cost, fits);
    GreedyUnfold(naive.indexes, naive.cost, rest, Some(bound), cost, fits);
    var r := Greedy(naive.indexes, naive.cost, rest, Some(bound), cost, fits);
    if r.Ok? && |r.value.indexes| == |naive.indexes| {
      assert r.value.indexes == naive.indexes by {
        assert r.value.indexes == r.value.indexes[..|naive.indexes|];
      }
    }
  }
}
