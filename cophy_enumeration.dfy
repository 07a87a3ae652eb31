/**
 * The enumeration that the four CoPhy input generators share
 * (selection/algorithms/cophy_algorithm.py, cophy_input_generation.py,
 * cophy_input_expanded.py and cophy_expanded.py carry copies of it):
 * the cost of every query without indexes, the accessed columns per table,
 * the candidate permutations, the useful index combinations, the 1-based
 * index ids over the sorted useful indexes, the `combi` id lists and the
 * `f4` cost rows.
 *
 * Python sets are kept as repetition-free sequences in insertion order,
 * dicts keyed by a query as maps keyed by the query's position in the
 * workload. `cost(q, s)` is `calculate_cost(Workload([q]), s)`.
 */
module CophyEnumeration {
  import opened Common
  import opened Schema
  import opened Indexes
  import opened Workloads

  /**
   * The enumeration as cophy_input_generation.py, cophy_input_expanded.py
   * and cophy_expanded.py write it: `Workload([query])` passes one argument
   * to a constructor that takes two (`queries`, `database_name`), a
   * TypeError at the first query; with no queries the enumeration passes
   * and the report of `cost_evaluation.cost_requests`, an attribute that
   * CostEvaluation does not define, is an AttributeError.
   * cophy_algorithm.py passes `workload.database_name` and is not affected.
   */
  function EnumerationAsWritten(qs: seq<Query>): (r: Result<()>)
    ensures r.Err?
    ensures r.error == "TypeError" <==> |qs| > 0
  {
    if |qs| > 0 then Err("TypeError") else Err("AttributeError")
  }

  /** The cost of one query under a set of indexes. */
  function QueryCost(cost: (Query, set<Index>) -> real, q: Query, s: set<Index>): real {
    cost(q, s)
  }

  /** `COSTS_PER_QUERY_WITHOUT_INDEXES`: every query costed without any index, by position. */
  method CostsWithoutIndexes(qs: seq<Query>, cost: (Query, set<Index>) -> real) returns (base: seq<real>)
    ensures base == CostsUnder(qs, {}, cost)
  {
    base := [];
    for j := 0 to |qs|
      invariant base == CostsUnder(qs[..j], {}, cost)
    {
      assert qs[..j + 1][..j] == qs[..j];
      base := base + [QueryCost(cost, qs[j], {})];
    }
    assert qs[..|qs|] == qs;
  }

  // ------------------------------------------------------ accessed columns per table

  /** The keys of `accessed_columns_per_table`: tables in the order their first column appears. */
  function TablesIn(cs: seq<Column>): seq<string> {
    if |cs| == 0 then [] else AddNew(TablesIn(cs[..|cs| - 1]), cs[|cs| - 1].table)
  }

  /** The column set of one table, in insertion order. */
  function ColumnsIn(cs: seq<Column>, t: string): seq<Column> {
    if |cs| == 0 then []
    else
      var rest := ColumnsIn(cs[..|cs| - 1], t);
      if cs[|cs| - 1].table == t then AddNew(rest, cs[|cs| - 1]) else rest
  }

  /** The tables are those of the accessed columns, each once. */
  lemma {:induction false} TablesInMeaning(cs: seq<Column>)
    ensures Distinct(TablesIn(cs))
    ensures forall t :: t in TablesIn(cs) <==> exists c :: c in cs && c.table == t
  {
    if |cs| > 0 {
      var p := cs[..|cs| - 1];
      TablesInMeaning(p);
      assert cs == p + [cs[|cs| - 1]];
    }
  }

  /** A table's columns are exactly the accessed columns of that table, each once. */
  lemma {:induction false} ColumnsInMeaning(cs: seq<Column>, t: string)
    ensures Distinct(ColumnsIn(cs, t))
    ensures forall c :: c in ColumnsIn(cs, t) <==> c in cs && c.table == t
  {
    if |cs| > 0 {
      var p := cs[..|cs| - 1];
      ColumnsInMeaning(p, t);
      assert cs == p + [cs[|cs| - 1]];
    }
  }

  /** A table none of whose columns was seen has no columns yet. */
  lemma {:induction false} ColumnsOfNewTable(cs: seq<Column>, t: string)
    requires t !in TablesIn(cs)
    ensures ColumnsIn(cs, t) == []
  {
    if |cs| > 0 {
      ColumnsOfNewTable(cs[..|cs| - 1], t);
    }
  }

  /** The dict the loops build, with its keys in insertion order. */
  ghost predicate AccessedSoFar(seen: seq<Column>, tables: seq<string>, columnsOf: map<string, seq<Column>>) {
    tables == TablesIn(seen) &&
    columnsOf.Keys == SetOf(tables) &&
    (forall t :: t in columnsOf ==> columnsOf[t] == ColumnsIn(seen, t))
  }

  /** The inner loop over one query's columns. */
  method AddQueryColumns(ghost seen: seq<Column>, tables: seq<string>, columnsOf: map<string, seq<Column>>,
                         cs: seq<Column>)
    returns (tables': seq<string>, columnsOf': map<string, seq<Column>>)
    requires AccessedSoFar(seen, tables, columnsOf)
    ensures AccessedSoFar(seen + cs, tables', columnsOf')
  {
    tables', columnsOf' := tables, columnsOf;
    assert seen + cs[..0] == seen;
    for j := 0 to |cs|
      invariant AccessedSoFar(seen + cs[..j], tables', columnsOf')
    {
      var c := cs[j];
      ghost var before := seen + cs[..j];
      assert (seen + cs[..j + 1])[..|before|] == before;
      assert seen + cs[..j + 1] == before + [c];
      if c.table !in columnsOf' {
        TablesInMeaning(before);
        ColumnsInMeaning(before, c.table);
        ColumnsOfNewTable(before, c.table);
        columnsOf' := columnsOf'[c.table := []];
        tables' := tables' + [c.table];
      }
      var old' := columnsOf'[c.table];
      if c !in old' {
        columnsOf' := columnsOf'[c.table := old' + [c]];
      }
    }
    assert cs[..|cs|] == cs;
  }

  /** The loops filling `accessed_columns_per_table`. */
  method AccessedColumnsPerTable(qs: seq<Query>) returns (tables: seq<string>, columnsOf: map<string, seq<Column>>)
    ensures AccessedSoFar(AllColumns(qs), tables, columnsOf)
  {
    tables, columnsOf := [], map[];
    for i := 0 to |qs|
      invariant AccessedSoFar(AllColumns(qs[..i]), tables, columnsOf)
    {
      assert qs[..i + 1][..i] == qs[..i];
      tables, columnsOf := AddQueryColumns(AllColumns(qs[..i]), tables, columnsOf, qs[i].columns);
    }
    assert qs[..|qs|] == qs;
  }

  // ------------------------------------------------------ permutations

  /** `x` put in front of every sequence of `ps`. */
  function Prepend<T>(x: T, ps: seq<seq<T>>): (r: seq<seq<T>>)
    ensures |r| == |ps|
  {
    if |ps| == 0 then [] else Prepend(x, ps[..|ps| - 1]) + [[x] + ps[|ps| - 1]]
  }

  lemma {:induction false} PrependMeaning<T>(x: T, ps: seq<seq<T>>, p: seq<T>)
    ensures p in Prepend(x, ps) <==> |p| > 0 && p[0] == x && p[1..] in ps
  {
    if |ps| > 0 {
      var last := ps[|ps| - 1];
      PrependMeaning(x, ps[..|ps| - 1], p);
      assert ps == ps[..|ps| - 1] + [last];
      if p == [x] + last {
        assert p[1..] == last;
      }
      if |p| > 0 && p[0] == x && p[1..] == last {
        assert p == [x] + last;
      }
    }
  }

  /**
   * `itertools.permutations(s, r)`: the arrangements of `r` elements taken
   * at distinct positions, in lexicographic order of the positions.
   */
  function Permutations<T(==,!new)>(s: seq<T>, r: nat): seq<seq<T>>
    decreases r, 1, 0
  {
    if r == 0 then [[]] else PermutationsLeading(s, r, |s|)
  }

  /** The arrangements of length `r > 0` whose first element is one of `s[..k]`. */
  function PermutationsLeading<T(==,!new)>(s: seq<T>, r: nat, k: nat): seq<seq<T>>
    requires 0 < r && k <= |s|
    decreases r, 0, k
  {
    if k == 0 then []
    else PermutationsLeading(s, r, k - 1) + Prepend(s[k - 1], Permutations(Without(s, s[k - 1]), r - 1))
  }

  /** `p` has length `r`, no repetition, and only elements of `s`. */
  predicate Arrangement<T(==)>(p: seq<T>, s: seq<T>, r: nat) {
    |p| == r && Distinct(p) && forall i :: 0 <= i < |p| ==> p[i] in s
  }

  /** On distinct elements the permutations are the repetition-free sequences of length `r` over `s`. */
  lemma {:induction false} PermutationsMeaning<T(!new)>(s: seq<T>, r: nat, p: seq<T>)
    requires Distinct(s)
    ensures p in Permutations(s, r) <==> Arrangement(p, s, r)
    decreases r, 1, 0
  {
    if r > 0 {
      PermutationsLeadingMeaning(s, r, |s|, p);
      assert s[..|s|] == s;
    }
  }

  /** A sequence led by `x` is an arrangement over `s` iff its tail is one over `s` without `x`. */
  lemma ConsOverWithout<T(!new)>(s: seq<T>, x: T, p: seq<T>)
    requires Distinct(s) && |p| > 0 && p[0] == x
    ensures Arrangement(p, s, |p|) <==> x in s && Arrangement(p[1..], Without(s, x), |p| - 1)
  {
    var q := p[1..];
    assert forall i :: 0 < i < |p| ==> p[i] == q[i - 1];
    if Arrangement(p, s, |p|) {
      forall i | 0 <= i < |q| ensures q[i] in Without(s, x) {
        assert q[i] == p[i + 1] && p[i + 1] != p[0];
      }
      forall a, b | 0 <= a < b < |q| ensures q[a] != q[b] {
        assert q[a] == p[a + 1] && q[b] == p[b + 1];
      }
    }
    if x in s && Arrangement(q, Without(s, x), |p| - 1) {
      forall a, b | 0 <= a < b < |p| ensures p[a] != p[b] {
        assert p[b] == q[b - 1] && p[b] in Without(s, x);
        if a > 0 { assert p[a] == q[a - 1]; }
      }
      forall i | 0 <= i < |p| ensures p[i] in s {
        if i > 0 { assert p[i] == q[i - 1] && q[i - 1] in Without(s, x); }
      }
    }
  }

  /** The arrangements that `x` leads. */
  lemma {:induction false} LedByMeaning<T(!new)>(s: seq<T>, x: T, r: nat, p: seq<T>)
    requires Distinct(s) && x in s && 0 < r
    ensures p in Prepend(x, Permutations(Without(s, x), r - 1)) <==> Arrangement(p, s, r) && p[0] == x
    decreases r, 0, 0
  {
    var rest := Without(s, x);
    PrependMeaning(x, Permutations(rest, r - 1), p);
    if |p| > 0 && p[0] == x {
      PermutationsMeaning(rest, r - 1, p[1..]);
      if |p| == r {
        ConsOverWithout(s, x, p);
      } else {
        assert !Arrangement(p[1..], rest, r - 1);
      }
    }
  }

  lemma {:induction false} PermutationsLeadingMeaning<T(!new)>(s: seq<T>, r: nat, k: nat, p: seq<T>)
    requires Distinct(s) && 0 < r && k <= |s|
    ensures p in PermutationsLeading(s, r, k) <==> Arrangement(p, s, r) && p[0] in s[..k]
    decreases r, 0, k
  {
    if k > 0 {
      var x := s[k - 1];
      assert s[..k] == s[..k - 1] + [x];
      assert forall y :: y in s[..k] <==> y in s[..k - 1] || y == x;
      PermutationsLeadingMeaning(s, r, k - 1, p);
      LedByMeaning(s, x, r, p);
    }
  }

  // ------------------------------------------------------ candidate indexes

  /** One index per column sequence, `Index(index_columns)`. */
  function IndexesOf(ps: seq<seq<Column>>): (r: seq<Index>)
    ensures |r| == |ps|
  {
    if |ps| == 0 then [] else IndexesOf(ps[..|ps| - 1]) + [Index(ps[|ps| - 1])]
  }

  lemma {:induction false} IndexesOfMeaning(ps: seq<seq<Column>>, ix: Index)
    ensures ix in IndexesOf(ps) <==> ix.columns in ps
  {
    if |ps| > 0 {
      IndexesOfMeaning(ps[..|ps| - 1], ix);
      assert ps == ps[..|ps| - 1] + [ps[|ps| - 1]];
    }
  }

  /** The indexes of one width, table after table in key order. */
  function WidthCandidates(cs: seq<Column>, tables: seq<string>, w: nat): seq<Index> {
    if |tables| == 0 then []
    else WidthCandidates(cs, tables[..|tables| - 1], w) + IndexesOf(Permutations(ColumnsIn(cs, tables[|tables| - 1]), w))
  }

  /** The indexes the three nested loops generate, widths 1 to `maxWidth` in turn. */
  function Generated(cs: seq<Column>, tables: seq<string>, maxWidth: int): seq<Index>
    decreases maxWidth
  {
    if maxWidth < 1 then [] else Generated(cs, tables, maxWidth - 1) + WidthCandidates(cs, tables, maxWidth)
  }

  /** `candidate_indexes` for the queries of a workload, in insertion order. */
  function Candidates(qs: seq<Query>, maxWidth: int): seq<Index> {
    var cs := AllColumns(qs);
    AddAll([], Generated(cs, TablesIn(cs), maxWidth))
  }

  /**
   * An index of width 1 to `maxWidth` without a repeated column whose
   * columns are accessed columns of one table.
   */
  predicate IsCandidate(cs: seq<Column>, maxWidth: int, ix: Index) {
    1 <= |ix.columns| <= maxWidth && Distinct(ix.columns) &&
    forall k :: 0 <= k < |ix.columns| ==> ix.columns[k] in cs && ix.columns[k].table == ix.columns[0].table
  }

  lemma {:induction false} WidthCandidatesMeaning(cs: seq<Column>, tables: seq<string>, w: nat, ix: Index)
    requires 0 < w
    ensures ix in WidthCandidates(cs, tables, w) <==>
      |ix.columns| == w && IsCandidate(cs, w, ix) && ix.columns[0].table in tables
  {
    if |tables| > 0 {
      var t := tables[|tables| - 1];
      var cols := ColumnsIn(cs, t);
      WidthCandidatesMeaning(cs, tables[..|tables| - 1], w, ix);
      IndexesOfMeaning(Permutations(cols, w), ix);
      ColumnsInMeaning(cs, t);
      PermutationsMeaning(cols, w, ix.columns);
      assert tables == tables[..|tables| - 1] + [t];
      if |ix.columns| == w && Distinct(ix.columns) && ix.columns[0].table == t {
        assert (forall k :: 0 <= k < w ==> ix.columns[k] in cols) <==>
          (forall k :: 0 <= k < w ==> ix.columns[k] in cs && ix.columns[k].table == ix.columns[0].table);
      }
    }
  }

  lemma {:induction false} GeneratedMeaning(cs: seq<Column>, tables: seq<string>, maxWidth: int, ix: Index)
    ensures ix in Generated(cs, tables, maxWidth) <==> IsCandidate(cs, maxWidth, ix) && ix.columns[0].table in tables
    decreases maxWidth
  {
    if maxWidth >= 1 {
      GeneratedMeaning(cs, tables, maxWidth - 1, ix);
      WidthCandidatesMeaning(cs, tables, maxWidth, ix);
    }
  }

  /**
   * The candidates are, each once, exactly the repetition-free column
   * sequences of length 1 to `maxWidth` over the columns that the queries
   * access on one table.
   */
  lemma CandidatesMeaning(qs: seq<Query>, maxWidth: int, ix: Index)
    ensures Distinct(Candidates(qs, maxWidth))
    ensures ix in Candidates(qs, maxWidth) <==>
      1 <= |ix.columns| <= maxWidth && Distinct(ix.columns) &&
      forall k :: 0 <= k < |ix.columns| ==> Referenced(qs, ix.columns[k]) && ix.columns[k].table == ix.columns[0].table
  {
    var cs := AllColumns(qs);
    var tables := TablesIn(cs);
    AddAllMeaning([], Generated(cs, tables, maxWidth));
    GeneratedMeaning(cs, tables, maxWidth, ix);
    TablesInMeaning(cs);
    forall c ensures c in cs <==> Referenced(qs, c) {
      AllColumnsReferenced(qs, c);
    }
    if IsCandidate(cs, maxWidth, ix) {
      assert ix.columns[0] in cs;
    }
  }

  /** The innermost loop: every permutation of one table's columns added as an index. */
  method AddPermutations(cands: seq<Index>, cols: seq<Column>, w: nat) returns (r: seq<Index>)
    ensures r == AddAll(cands, IndexesOf(Permutations(cols, w)))
  {
    var perms := Permutations(cols, w);
    r := cands;
    for i := 0 to |perms|
      invariant r == AddAll(cands, IndexesOf(perms[..i]))
    {
      assert perms[..i + 1][..i] == perms[..i];
      AddAllSnoc(cands, IndexesOf(perms[..i]), Index(perms[i]));
      var ix := Index(perms[i]);
      if ix !in r {
        r := r + [ix];
      }
    }
    assert perms[..|perms|] == perms;
  }

  /** The loop over the tables for one width. */
  method AddWidth(ghost cs: seq<Column>, cands: seq<Index>, tables: seq<string>, columnsOf: map<string, seq<Column>>,
                  w: nat)
    returns (r: seq<Index>)
    requires forall t :: t in tables ==> t in columnsOf && columnsOf[t] == ColumnsIn(cs, t)
    ensures r == AddAll(cands, WidthCandidates(cs, tables, w))
  {
    r := cands;
    for n := 0 to |tables|
      invariant r == AddAll(cands, WidthCandidates(cs, tables[..n], w))
    {
      assert tables[..n + 1][..n] == tables[..n];
      AddAllConcat(cands, WidthCandidates(cs, tables[..n], w), IndexesOf(Permutations(ColumnsIn(cs, tables[n]), w)));
      r := AddPermutations(r, columnsOf[tables[n]], w);
    }
    assert tables[..|tables|] == tables;
  }

  /** Lines 28-39: the accessed columns per table, then the candidates of every width. */
  method CandidateIndexes(qs: seq<Query>, maxWidth: int) returns (r: seq<Index>)
    ensures r == Candidates(qs, maxWidth)
  {
    var tables, columnsOf := AccessedColumnsPerTable(qs);
    ghost var cs := AllColumns(qs);
    r := [];
    var w := 1;
    while w <= maxWidth
      invariant w >= 1 && (maxWidth >= 1 ==> w <= maxWidth + 1) && (maxWidth < 1 ==> w == 1)
      invariant r == AddAll([], Generated(cs, tables, w - 1))
    {
      AddAllConcat([], Generated(cs, tables, w - 1), WidthCandidates(cs, tables, w));
      r := AddWidth(cs, r, tables, columnsOf, w);
      w := w + 1;
    }
    assert Generated(cs, tables, w - 1) == Generated(cs, tables, maxWidth);
  }

  // ------------------------------------------------------ index combinations

  /** `itertools.combinations(s, n)`: the length-`n` subsequences of `s`, in lexicographic order of positions. */
  function Combinations<T>(s: seq<T>, n: nat): seq<seq<T>>
    decreases |s|
  {
    if n == 0 then [[]]
    else if |s| == 0 then []
    else Prepend(s[0], Combinations(s[1..], n - 1)) + Combinations(s[1..], n)
  }

  /** `c` is `s` with some elements left out. */
  predicate IsSubsequence<T(==)>(c: seq<T>, s: seq<T>)
    decreases |s|
  {
    if |c| == 0 then true
    else if |s| == 0 then false
    else (c[0] == s[0] && IsSubsequence(c[1..], s[1..])) || IsSubsequence(c, s[1..])
  }

  /** The combinations are exactly the subsequences of length `n`. */
  lemma {:induction false} CombinationsMeaning<T>(s: seq<T>, n: nat, c: seq<T>)
    ensures c in Combinations(s, n) <==> |c| == n && IsSubsequence(c, s)
    decreases |s|, 2
  {
    if n > 0 && |s| > 0 {
      CombinationsMeaningCons(s, n, c);
    } else if n > 0 {
      assert |c| > 0 ==> !IsSubsequence(c, s);
    } else {
      assert c in [[]] <==> c == [];
    }
  }

  lemma {:induction false} CombinationsMeaningCons<T>(s: seq<T>, n: nat, c: seq<T>)
    requires n > 0 && |s| > 0
    ensures c in Combinations(s, n) <==> |c| == n && IsSubsequence(c, s)
    decreases |s|, 1
  {
    var shorter, rest := Combinations(s[1..], n - 1), Combinations(s[1..], n);
    var led := Prepend(s[0], shorter);
    assert Combinations(s, n) == led + rest;
    LedMeaning(s, n, c);
    CombinationsMeaning(s[1..], n, c);
    CombinationsCons(s, n, c, Combinations(s, n), led, rest);
  }

  /** The combinations led by `s[0]` are `s[0]` before a subsequence of the tail. */
  lemma LedMeaning<T>(s: seq<T>, n: nat, c: seq<T>)
    requires n > 0 && |s| > 0
    ensures c in Prepend(s[0], Combinations(s[1..], n - 1)) <==>
      |c| > 0 && c[0] == s[0] && |c| - 1 == n - 1 && IsSubsequence(c[1..], s[1..])
    decreases |s|, 0
  {
    if |c| > 0 {
      CombinationsMeaning(s[1..], n - 1, c[1..]);
    }
    PrependMeaning(s[0], Combinations(s[1..], n - 1), c);
  }

  /** The step of the above: the combinations led by `s[0]`, then those of the tail. */
  lemma CombinationsCons<T>(s: seq<T>, n: nat, c: seq<T>, all: seq<seq<T>>, led: seq<seq<T>>, rest: seq<seq<T>>)
    requires n > 0 && |s| > 0 && all == led + rest
    requires c in led <==> |c| > 0 && c[0] == s[0] && |c| - 1 == n - 1 && IsSubsequence(c[1..], s[1..])
    requires c in rest <==> |c| == n && IsSubsequence(c, s[1..])
    ensures c in all <==> |c| == n && IsSubsequence(c, s)
  {
    if |c| > 0 {
      SubsequenceCons(c, s);
    }
  }

  /** `IsSubsequence` on two non-empty sequences: the heads match, or `c` is a subsequence of the tail. */
  lemma SubsequenceCons<T>(c: seq<T>, s: seq<T>)
    requires |c| > 0 && |s| > 0
    ensures IsSubsequence(c, s) <==> (c[0] == s[0] && IsSubsequence(c[1..], s[1..])) || IsSubsequence(c, s[1..])
  {
  }

  /** A subsequence of a repetition-free sequence has no repetition and only its elements. */
  lemma {:induction false} SubsequenceOfDistinct<T>(c: seq<T>, s: seq<T>)
    requires Distinct(s) && IsSubsequence(c, s)
    ensures Distinct(c) && forall x :: x in c ==> x in s
    decreases |s|
  {
    if |c| > 0 {
      assert s == [s[0]] + s[1..];
      assert Distinct(s[1..]) by {
        forall a, b | 0 <= a < b < |s[1..]| ensures s[1..][a] != s[1..][b] {
          assert s[1..][a] == s[a + 1];
        }
      }
      if c[0] == s[0] && IsSubsequence(c[1..], s[1..]) {
        SubsequenceOfDistinct(c[1..], s[1..]);
        assert c == [c[0]] + c[1..];
        assert s[0] !in s[1..];
        forall a, b | 0 <= a < b < |c| ensures c[a] != c[b] {
          assert c[b] == c[1..][b - 1];
          if a > 0 { assert c[a] == c[1..][a - 1]; }
        }
      } else {
        SubsequenceOfDistinct(c, s[1..]);
      }
    }
  }

  /** The combinations of sizes 1 to `maxPer`, size after size (lines 45-46). */
  function AllCombinations<T>(s: seq<T>, maxPer: int): seq<seq<T>>
    decreases maxPer
  {
    if maxPer < 1 then [] else AllCombinations(s, maxPer - 1) + Combinations(s, maxPer)
  }

  /** Every enumerated combination of repetition-free candidates is a repetition-free choice of 1 to `maxPer` of them. */
  lemma {:induction false} AllCombinationsMeaning<T>(s: seq<T>, maxPer: int, c: seq<T>)
    ensures c in AllCombinations(s, maxPer) <==> 1 <= |c| <= maxPer && IsSubsequence(c, s)
    ensures Distinct(s) && c in AllCombinations(s, maxPer) ==> Distinct(c) && forall x :: x in c ==> x in s
    decreases maxPer
  {
    if maxPer >= 1 {
      AllCombinationsMeaning(s, maxPer - 1, c);
      CombinationsMeaning(s, maxPer, c);
    }
    if Distinct(s) && IsSubsequence(c, s) {
      SubsequenceOfDistinct(c, s);
    }
  }

  // ------------------------------------------------------ useful combinations

  /**
   * What is recorded about one combination: the query costs in workload
   * order (the `costs` list of cophy_algorithm.py and cophy_expanded.py) and
   * the costs of the queries it makes cheaper, by position (the
   * `costs_per_query` dict of cophy_input_generation.py and
   * cophy_input_expanded.py).
   */
  datatype Entry = Entry(combination: seq<Index>, costs: seq<real>, cheaper: map<nat, real>)

  /** Every query costed under one index set, in workload order. */
  function CostsUnder(qs: seq<Query>, s: set<Index>, cost: (Query, set<Index>) -> real): (r: seq<real>)
    ensures |r| == |qs|
  {
    if |qs| == 0 then [] else CostsUnder(qs[..|qs| - 1], s, cost) + [QueryCost(cost, qs[|qs| - 1], s)]
  }

  lemma {:induction false} CostsUnderAt(qs: seq<Query>, s: set<Index>, cost: (Query, set<Index>) -> real, j: nat)
    requires j < |qs|
    ensures CostsUnder(qs, s, cost)[j] == QueryCost(cost, qs[j], s)
  {
    if j < |qs| - 1 {
      CostsUnderAt(qs[..|qs| - 1], s, cost, j);
    }
  }

  /** The positions whose cost lies strictly below the cost without indexes, with that cost. */
  function CheaperOf(costs: seq<real>, base: seq<real>): map<nat, real> {
    map j | 0 <= j < |costs| && j < |base| && costs[j] < base[j] :: costs[j]
  }

  /** `is_useful_combination`: some query is strictly cheaper than without indexes. */
  predicate IsUseful(costs: seq<real>, base: seq<real>) {
    exists j :: 0 <= j < |costs| && j < |base| && costs[j] < base[j]
  }

  /** The entry for one combination, costed under `set(index_combination)`. */
  function EntryOf(qs: seq<Query>, base: seq<real>, comb: seq<Index>, cost: (Query, set<Index>) -> real): Entry {
    var costs := CostsUnder(qs, SetOf(comb), cost);
    Entry(comb, costs, CheaperOf(costs, base))
  }

  /**
   * An entry lists every query's cost under the combination, its dict holds
   * exactly the queries made strictly cheaper, and the combination is
   * useful iff that dict is not empty.
   */
  lemma EntryOfMeaning(qs: seq<Query>, base: seq<real>, comb: seq<Index>, cost: (Query, set<Index>) -> real)
    requires |base| == |qs|
    ensures var e := EntryOf(qs, base, comb, cost);
      |e.costs| == |qs| &&
      (forall j :: 0 <= j < |qs| ==> e.costs[j] == QueryCost(cost, qs[j], SetOf(comb))) &&
      (forall j: nat :: j in e.cheaper <==> j < |qs| && e.costs[j] < base[j]) &&
      (forall j :: j in e.cheaper ==> e.cheaper[j] == e.costs[j]) &&
      (IsUseful(e.costs, base) <==> e.cheaper != map[])
  {
    var e := EntryOf(qs, base, comb, cost);
    forall j | 0 <= j < |qs| ensures e.costs[j] == QueryCost(cost, qs[j], SetOf(comb)) {
      CostsUnderAt(qs, SetOf(comb), cost, j);
    }
    if IsUseful(e.costs, base) {
      var j :| 0 <= j < |e.costs| && j < |base| && e.costs[j] < base[j];
      assert j in e.cheaper;
    }
    if e.cheaper != map[] {
      var j :| j in e.cheaper;
      assert e.costs[j] < base[j];
    }
  }

  /** The useful combinations of `combs` with their entries, in enumeration order (the dict's keys). */
  function Recorded(qs: seq<Query>, base: seq<real>, combs: seq<seq<Index>>, cost: (Query, set<Index>) -> real): seq<Entry> {
    if |combs| == 0 then []
    else
      var rest := Recorded(qs, base, combs[..|combs| - 1], cost);
      var e := EntryOf(qs, base, combs[|combs| - 1], cost);
      if IsUseful(e.costs, base) then rest + [e] else rest
  }

  /** An entry is recorded iff its combination was enumerated and makes some query cheaper. */
  lemma {:induction false} RecordedMeaning(qs: seq<Query>, base: seq<real>, combs: seq<seq<Index>>,
                                           cost: (Query, set<Index>) -> real, e: Entry)
    ensures e in Recorded(qs, base, combs, cost) <==>
      e.combination in combs && e == EntryOf(qs, base, e.combination, cost) && IsUseful(e.costs, base)
  {
    if |combs| > 0 {
      RecordedMeaning(qs, base, combs[..|combs| - 1], cost, e);
      assert combs == combs[..|combs| - 1] + [combs[|combs| - 1]];
    }
  }

  lemma {:induction false} RecordedConcat(qs: seq<Query>, base: seq<real>, a: seq<seq<Index>>, b: seq<seq<Index>>,
                                          cost: (Query, set<Index>) -> real)
    ensures Recorded(qs, base, a + b, cost) == Recorded(qs, base, a, cost) + Recorded(qs, base, b, cost)
  {
    if |b| == 0 {
      assert a + b == a;
    } else {
      RecordedConcat(qs, base, a, b[..|b| - 1], cost);
      assert (a + b)[..|a + b| - 1] == a + b[..|b| - 1];
    }
  }

  /** The indexes of the recorded combinations, one combination after another. */
  function IndexesIn(entries: seq<Entry>): seq<Index> {
    if |entries| == 0 then [] else IndexesIn(entries[..|entries| - 1]) + entries[|entries| - 1].combination
  }

  lemma {:induction false} IndexesInMeaning(entries: seq<Entry>, ix: Index)
    ensures ix in IndexesIn(entries) <==> exists e :: e in entries && ix in e.combination
  {
    if |entries| > 0 {
      IndexesInMeaning(entries[..|entries| - 1], ix);
      assert entries == entries[..|entries| - 1] + [entries[|entries| - 1]];
    }
  }

  lemma {:induction false} IndexesInConcat(a: seq<Entry>, b: seq<Entry>)
    ensures IndexesIn(a + b) == IndexesIn(a) + IndexesIn(b)
  {
    if |b| == 0 {
      assert a + b == a;
    } else {
      var init, ab := b[..|b| - 1], a + b;
      IndexesInConcat(a, init);
      assert ab[..|ab| - 1] == a + init && ab[|ab| - 1] == b[|b| - 1];
      var x, ia, ii := b[|b| - 1].combination, IndexesIn(a), IndexesIn(init);
      assert IndexesIn(ab) == ia + ii + x;
      assert IndexesIn(b) == ii + x;
      assert ia + ii + x == ia + (ii + x);
    }
  }

  /** The innermost loop: one combination costed for every query. */
  method EvaluateCombination(qs: seq<Query>, base: seq<real>, comb: seq<Index>, cost: (Query, set<Index>) -> real)
    returns (e: Entry, useful: bool)
    requires |base| == |qs|
    ensures e == EntryOf(qs, base, comb, cost)
    ensures useful <==> IsUseful(e.costs, base)
  {
    var costs: seq<real> := [];
    var cheaper: map<nat, real> := map[];
    useful := false;
    var indexes := SetOf(comb);
    for j := 0 to |qs|
      invariant costs == CostsUnder(qs[..j], indexes, cost)
      invariant cheaper == CheaperOf(costs, base)
      invariant useful <==> IsUseful(costs, base)
    {
      assert qs[..j + 1][..j] == qs[..j];
      var queryCost := QueryCost(cost, qs[j], indexes);
      ghost var before := costs;
      costs := costs + [queryCost];
      if queryCost < base[j] {
        useful := true;
        cheaper := cheaper[j := queryCost];
        assert IsUseful(costs, base) by {
          assert costs[j] < base[j];
        }
      } else {
        assert IsUseful(costs, base) ==> IsUseful(before, base) by {
          if IsUseful(costs, base) {
            var k :| 0 <= k < |costs| && k < |base| && costs[k] < base[k];
            assert k < j;
          }
        }
      }
      assert forall k :: 0 <= k < j ==> costs[k] == before[k];
      assert cheaper == CheaperOf(costs, base);
    }
    assert qs[..|qs|] == qs;
    e := Entry(comb, costs, cheaper);
  }

  /** The loop over the combinations of one size: useful ones are recorded and their indexes collected. */
  method RecordCombinations(qs: seq<Query>, base: seq<real>, combs: seq<seq<Index>>, cost: (Query, set<Index>) -> real,
                            entries0: seq<Entry>, useful0: seq<Index>)
    returns (entries: seq<Entry>, useful: seq<Index>)
    requires |base| == |qs|
    ensures entries == entries0 + Recorded(qs, base, combs, cost)
    ensures useful == AddAll(useful0, IndexesIn(Recorded(qs, base, combs, cost)))
  {
    entries, useful := entries0, useful0;
    for i := 0 to |combs|
      invariant entries == entries0 + Recorded(qs, base, combs[..i], cost)
      invariant useful == AddAll(useful0, IndexesIn(Recorded(qs, base, combs[..i], cost)))
    {
      assert combs[..i + 1][..i] == combs[..i];
      ghost var done := Recorded(qs, base, combs[..i], cost);
      var e, isUseful := EvaluateCombination(qs, base, combs[i], cost);
      if isUseful {
        assert Recorded(qs, base, combs[..i + 1], cost) == done + [e];
        assert (done + [e])[..|done|] == done;
        AddAllConcat(useful0, IndexesIn(done), e.combination);
        entries := entries + [e];
        useful := AddEach(useful, e.combination);
      }
    }
    assert combs[..|combs|] == combs;
  }

  /** Lines 42-57: every combination of 1 to `maxPer` candidates, with the useful indexes seeded by `seed`. */
  method EnumerateCombinations(qs: seq<Query>, base: seq<real>, cands: seq<Index>, maxPer: int,
                               cost: (Query, set<Index>) -> real, seed: seq<Index>)
    returns (entries: seq<Entry>, useful: seq<Index>)
    requires |base| == |qs|
    ensures entries == Recorded(qs, base, AllCombinations(cands, maxPer), cost)
    ensures useful == AddAll(seed, IndexesIn(entries))
  {
    entries, useful := [], seed;
    var n := 1;
    while n <= maxPer
      invariant n >= 1 && (maxPer >= 1 ==> n <= maxPer + 1) && (maxPer < 1 ==> n == 1)
      invariant entries == Recorded(qs, base, AllCombinations(cands, n - 1), cost)
      invariant useful == AddAll(seed, IndexesIn(entries))
    {
      var combs := Combinations(cands, n);
      RecordedConcat(qs, base, AllCombinations(cands, n - 1), combs, cost);
      IndexesInConcat(entries, Recorded(qs, base, combs, cost));
      AddAllConcat(seed, IndexesIn(entries), IndexesIn(Recorded(qs, base, combs, cost)));
      entries, useful := RecordCombinations(qs, base, combs, cost, entries, useful);
      n := n + 1;
    }
    assert AllCombinations(cands, n - 1) == AllCombinations(cands, maxPer);
  }

  /**
   * The useful indexes are the seed together with every index of a
   * recorded combination, and nothing else.
   */
  lemma UsefulIndexesMeaning(seed: seq<Index>, entries: seq<Entry>, ix: Index)
    ensures Distinct(seed) ==> Distinct(AddAll(seed, IndexesIn(entries)))
    ensures ix in AddAll(seed, IndexesIn(entries)) <==> ix in seed || exists e :: e in entries && ix in e.combination
  {
    AddAllMeaning(seed, IndexesIn(entries));
    IndexesInMeaning(entries, ix);
  }

  // ------------------------------------------------------ index ids

  /** One row of `param a`: the id, the estimated size and the column names of a useful index. */
  datatype IndexRow = IndexRow(id: nat, size: nat, columnNames: seq<string>)

  /** `index.estimated_size`, as the size oracle gives it. */
  function SizeOf(sizeOf: Index -> nat, ix: Index): nat {
    sizeOf(ix)
  }

  lemma {:induction false} DistinctMultiplicity<T>(b: seq<T>, x: T)
    requires Distinct(b)
    ensures multiset(b)[x] <= 1
  {
    if |b| > 0 {
      var p := b[..|b| - 1];
      DistinctMultiplicity(p, x);
      assert b == p + [b[|b| - 1]];
    }
  }

  /** A reordering of a repetition-free sequence has no repetition either. */
  lemma DistinctPermuted<T>(a: seq<T>, b: seq<T>)
    requires multiset(a) == multiset(b) && Distinct(b)
    ensures Distinct(a)
  {
    forall i, j | 0 <= i < j < |a| ensures a[i] != a[j] {
      DistinctMultiplicity(b, a[i]);
      assert a == a[..j] + [a[j]] + a[j + 1..];
      assert a[..j][i] == a[i];
      assert multiset(a)[a[i]] >= multiset(a[..j])[a[i]] + multiset([a[j]])[a[i]];
    }
  }

  /** Reorderings have the same elements. */
  lemma SameElements<T>(a: seq<T>, b: seq<T>)
    requires multiset(a) == multiset(b)
    ensures forall x :: x in a <==> x in b
  {
    forall x ensures x in a <==> x in b {
      assert x in a <==> x in multiset(a);
      assert x in b <==> x in multiset(b);
    }
  }

  /**
   * The rows and ids of the enumerated sorted indexes: the i-th index
   * (from 0) gets id i + 1 and a row with its size and column names.
   */
  ghost predicate Numbered(sorted: seq<Index>, sizeOf: Index -> nat, rows: seq<IndexRow>, ids: map<Index, nat>) {
    |rows| == |sorted| &&
    (forall i :: 0 <= i < |sorted| ==> rows[i] == IndexRow(i + 1, SizeOf(sizeOf, sorted[i]), ColumnNames(sorted[i]))) &&
    ids.Keys == SetOf(sorted) &&
    (forall i :: 0 <= i < |sorted| ==> ids[sorted[i]] == i + 1)
  }

  /** `index_ids` after the loop: the i-th sorted index (from 0) maps to i + 1. */
  function IdsOf(sorted: seq<Index>): map<Index, nat> {
    if |sorted| == 0 then map[] else IdsOf(sorted[..|sorted| - 1])[sorted[|sorted| - 1] := |sorted|]
  }

  /** The `param a` rows of the sorted indexes. */
  function IndexRowsOf(sorted: seq<Index>, sizeOf: Index -> nat): (r: seq<IndexRow>)
    ensures |r| == |sorted|
  {
    if |sorted| == 0 then []
    else
      var ix := sorted[|sorted| - 1];
      IndexRowsOf(sorted[..|sorted| - 1], sizeOf) + [IndexRow(|sorted|, SizeOf(sizeOf, ix), ColumnNames(ix))]
  }

  /** Every index has a size, which `assert(index.estimated_size)` demands. */
  predicate AllSized(s: seq<Index>, sizeOf: Index -> nat) {
    forall k :: 0 <= k < |s| ==> SizeOf(sizeOf, s[k]) != 0
  }

  /** On repetition-free indexes the ids are 1..n in order and every row carries its index's size and names. */
  lemma {:induction false} NumberedOf(sorted: seq<Index>, sizeOf: Index -> nat)
    requires Distinct(sorted)
    ensures Numbered(sorted, sizeOf, IndexRowsOf(sorted, sizeOf), IdsOf(sorted))
  {
    if |sorted| > 0 {
      var n := |sorted| - 1;
      var p := sorted[..n];
      NumberedOf(p, sizeOf);
      assert sorted == p + [sorted[n]];
      assert sorted[n] !in p;
    }
  }

  /**
   * The loop over `sorted(useful_indexes)`: it fails on the first index
   * without a size (`assert(index.estimated_size)`), so it fails iff some
   * useful index has none; otherwise it numbers the sorted indexes 1..n.
   * The enumerated indexes hold column tuples, so they are sorted by the
   * tuple rendering.
   */
  method NumberIndexes(useful: seq<Index>, sizeOf: Index -> nat) returns (r: Result<seq<IndexRow>>, ids: map<Index, nat>)
    ensures r.Ok? <==> AllSized(useful, sizeOf)
    ensures r.Err? ==> r.error == "AssertionError"
    ensures r.Ok? ==> r.value == IndexRowsOf(SortTupleIndexes(useful), sizeOf) && ids == IdsOf(SortTupleIndexes(useful))
  {
    var sorted := SortTupleIndexes(useful);
    AllSizedSorted(useful, sizeOf);
    var rows: seq<IndexRow> := [];
    ids := map[];
    for i := 0 to |sorted|
      invariant AllSized(sorted[..i], sizeOf)
      invariant rows == IndexRowsOf(sorted[..i], sizeOf)
      invariant ids == IdsOf(sorted[..i])
    {
      var ix := sorted[i];
      NumberStep(sorted, sizeOf, i);
      if SizeOf(sizeOf, ix) == 0 {
        return Err("AssertionError"), ids;
      }
      rows := rows + [IndexRow(i + 1, SizeOf(sizeOf, ix), ColumnNames(ix))];
      ids := ids[ix := i + 1];
    }
    assert sorted[..|sorted|] == sorted;
    r := Ok(rows);
  }

  /** One more index numbered: its row and id are appended, and it must have a size. */
  lemma NumberStep(sorted: seq<Index>, sizeOf: Index -> nat, i: nat)
    requires i < |sorted|
    ensures var ix := sorted[i];
      IndexRowsOf(sorted[..i + 1], sizeOf) == IndexRowsOf(sorted[..i], sizeOf) + [IndexRow(i + 1, SizeOf(sizeOf, ix), ColumnNames(ix))] &&
      IdsOf(sorted[..i + 1]) == IdsOf(sorted[..i])[ix := i + 1] &&
      (AllSized(sorted[..i + 1], sizeOf) <==> AllSized(sorted[..i], sizeOf) && SizeOf(sizeOf, ix) != 0) &&
      (SizeOf(sizeOf, ix) == 0 ==> !AllSized(sorted, sizeOf))
  {
    assert sorted[..i + 1][..i] == sorted[..i];
    assert sorted[..i + 1][i] == sorted[i];
  }

  /** Sizes are demanded of the same indexes in any order. */
  lemma AllSizedSorted(useful: seq<Index>, sizeOf: Index -> nat)
    ensures AllSized(SortTupleIndexes(useful), sizeOf) <==> AllSized(useful, sizeOf)
  {
    var sorted := SortTupleIndexes(useful);
    SameElements(sorted, useful);
    if AllSized(useful, sizeOf) {
      forall k | 0 <= k < |sorted| ensures SizeOf(sizeOf, sorted[k]) != 0 {
        assert sorted[k] in useful;
        var m :| 0 <= m < |useful| && useful[m] == sorted[k];
      }
    }
    if AllSized(sorted, sizeOf) {
      forall k | 0 <= k < |useful| ensures SizeOf(sizeOf, useful[k]) != 0 {
        assert useful[k] in sorted;
        var m :| 0 <= m < |sorted| && sorted[m] == useful[k];
      }
    }
  }

  /** The sorted useful indexes are a repetition-free reordering of them. */
  lemma SortedUseful(useful: seq<Index>)
    requires Distinct(useful)
    ensures Distinct(SortTupleIndexes(useful)) && SetOf(SortTupleIndexes(useful)) == SetOf(useful)
    ensures SortedBy(SortTupleIndexes(useful), TupleIndexLe)
  {
    DistinctPermuted(SortTupleIndexes(useful), useful);
    SameElements(SortTupleIndexes(useful), useful);
  }

  /**
   * The ids of a combination's indexes, `[index_ids[index] for index in
   * index_combination]`. An index without an id would raise a KeyError;
   * `CombiRowOf` demands that every index has one (`RecordedNumbered`
   * shows the enumeration meets that), and 0 only keeps this total.
   */
  function IdList(ids: map<Index, nat>, comb: seq<Index>): (r: seq<nat>)
    ensures |r| == |comb|
  {
    if |comb| == 0 then []
    else
      var x := comb[|comb| - 1];
      IdList(ids, comb[..|comb| - 1]) + [if x in ids then ids[x] else 0]
  }

  /** The ids of a combination decode back to its indexes through the sorted list. */
  lemma {:induction false} IdListDecodes(sorted: seq<Index>, sizeOf: Index -> nat, rows: seq<IndexRow>,
                                         ids: map<Index, nat>, comb: seq<Index>)
    requires Numbered(sorted, sizeOf, rows, ids) && SetOf(comb) <= SetOf(sorted)
    ensures forall k :: 0 <= k < |comb| ==>
      1 <= IdList(ids, comb)[k] <= |sorted| && sorted[IdList(ids, comb)[k] - 1] == comb[k]
  {
    if |comb| > 0 {
      var p := comb[..|comb| - 1];
      assert SetOf(p) <= SetOf(comb);
      IdListDecodes(sorted, sizeOf, rows, ids, p);
      var x := comb[|comb| - 1];
      assert x in SetOf(sorted);
      var m :| 0 <= m < |sorted| && sorted[m] == x;
      assert ids[x] == m + 1;
      assert forall k :: 0 <= k < |p| ==> IdList(ids, comb)[k] == IdList(ids, p)[k];
    }
  }

  /** The decimal texts of some ids. */
  function IdStrings(l: seq<nat>): (r: seq<string>)
    ensures |r| == |l|
  {
    if |l| == 0 then [] else IdStrings(l[..|l| - 1]) + [NatToString(l[|l| - 1])]
  }

  /** One `combi` entry: the 1-based combination id and its index ids joined by ' '. */
  datatype CombiRow = CombiRow(id: nat, indexIds: string)

  /** Every recorded combination's indexes have ids, so no lookup in `index_ids` raises. */
  ghost predicate AllNumbered(entries: seq<Entry>, ids: map<Index, nat>) {
    forall i :: 0 <= i < |entries| ==> SetOf(entries[i].combination) <= ids.Keys
  }

  /** The `combi` entry of the recorded combination at position `i` (from 0). */
  function CombiRowOf(ids: map<Index, nat>, i: nat, comb: seq<Index>): CombiRow {
    CombiRow(i + 1, Join(" ", IdStrings(IdList(ids, comb))))
  }

  /** The `combi` entries of the recorded combinations, ids 1..m in recording order. */
  function CombiRowsOf(entries: seq<Entry>, ids: map<Index, nat>): (r: seq<CombiRow>)
    ensures |r| == |entries|
  {
    if |entries| == 0 then []
    else
      var n := |entries| - 1;
      CombiRowsOf(entries[..n], ids) + [CombiRowOf(ids, n, entries[n].combination)]
  }

  /** The i-th `combi` entry (from 0) has id i + 1 and the ids of the i-th recorded combination. */
  lemma {:induction false} CombiRowsOfAt(entries: seq<Entry>, ids: map<Index, nat>, i: nat)
    requires i < |entries|
    ensures CombiRowsOf(entries, ids)[i] == CombiRowOf(ids, i, entries[i].combination)
  {
    if i < |entries| - 1 {
      CombiRowsOfAt(entries[..|entries| - 1], ids, i);
    }
  }

  /** The loop over the recorded combinations (lines 74-77). */
  method CombinationRows(entries: seq<Entry>, ids: map<Index, nat>) returns (rows: seq<CombiRow>)
    ensures rows == CombiRowsOf(entries, ids)
  {
    rows := [];
    for i := 0 to |entries|
      invariant rows == CombiRowsOf(entries[..i], ids)
    {
      assert entries[..i + 1][..i] == entries[..i];
      rows := rows + [CombiRowOf(ids, i, entries[i].combination)];
    }
    assert entries[..|entries|] == entries;
  }

  /** The recorded combinations' indexes are all useful, so all have ids once numbering succeeds. */
  lemma RecordedNumbered(seed: seq<Index>, entries: seq<Entry>, sizeOf: Index -> nat, rows: seq<IndexRow>,
                         ids: map<Index, nat>)
    requires Numbered(SortTupleIndexes(AddAll(seed, IndexesIn(entries))), sizeOf, rows, ids)
    ensures AllNumbered(entries, ids)
  {
    var useful := AddAll(seed, IndexesIn(entries));
    var sorted := SortTupleIndexes(useful);
    forall i, ix | 0 <= i < |entries| && ix in SetOf(entries[i].combination) ensures ix in ids {
      UsefulIndexesMeaning(seed, entries, ix);
      SameElements(sorted, useful);
    }
  }

  // ------------------------------------------------------ f4 cost rows

  /** One `f4` row: a query tag, a combination id (0 for no index) and a cost. */
  datatype CostRow<Q> = CostRow(query: Q, combination: nat, cost: real)

  /**
   * The test for a non-base row of the query at position `j`: the list
   * files compare `costs[query_id]` with the cost without indexes, the dict
   * files ask whether the query is in the combination's dict.
   */
  predicate Lower(e: Entry, j: nat, b: real, keyed: bool) {
    if keyed then j in e.cheaper else j < |e.costs| && e.costs[j] < b
  }

  /** The cost such a row reports. */
  function LowerCost(e: Entry, j: nat, b: real, keyed: bool): real
    requires Lower(e, j, b, keyed)
  {
    if keyed then e.cheaper[j] else e.costs[j]
  }

  /** The rows of one query after its base row: recorded combinations in order, where it is cheaper. */
  function QueryRows<Q>(tag: Q, j: nat, b: real, entries: seq<Entry>, keyed: bool): seq<CostRow<Q>> {
    if |entries| == 0 then []
    else
      var e := entries[|entries| - 1];
      QueryRows(tag, j, b, entries[..|entries| - 1], keyed) +
        if Lower(e, j, b, keyed) then [CostRow(tag, |entries|, LowerCost(e, j, b, keyed))] else []
  }

  /** All of `param f4`: per query its base row, then its cheaper combinations. */
  function Rows<Q>(labels: seq<Q>, base: seq<real>, entries: seq<Entry>, keyed: bool): seq<CostRow<Q>>
    requires |labels| <= |base|
  {
    if |labels| == 0 then []
    else
      var j := |labels| - 1;
      Rows(labels[..j], base, entries, keyed) + [CostRow(labels[j], 0, base[j])] +
        QueryRows(labels[j], j, base[j], entries, keyed)
  }

  /** The inner loop over the recorded combinations for the query at position `j`. */
  method QueryCostRows<Q>(tag: Q, j: nat, b: real, entries: seq<Entry>, keyed: bool) returns (rows: seq<CostRow<Q>>)
    ensures rows == QueryRows(tag, j, b, entries, keyed)
  {
    rows := [];
    for i := 0 to |entries|
      invariant rows == QueryRows(tag, j, b, entries[..i], keyed)
    {
      assert entries[..i + 1][..i] == entries[..i];
      var e := entries[i];
      if Lower(e, j, b, keyed) {
        rows := rows + [CostRow(tag, i + 1, LowerCost(e, j, b, keyed))];
      }
    }
    assert entries[..|entries|] == entries;
  }

  /** Lines 80-88: the loop over the queries. */
  method CostRows<Q>(labels: seq<Q>, base: seq<real>, entries: seq<Entry>, keyed: bool) returns (rows: seq<CostRow<Q>>)
    requires |labels| == |base|
    ensures rows == Rows(labels, base, entries, keyed)
  {
    rows := [];
    for j := 0 to |labels|
      invariant rows == Rows(labels[..j], base, entries, keyed)
    {
      assert labels[..j + 1][..j] == labels[..j];
      var after := QueryCostRows(labels[j], j, base[j], entries, keyed);
      rows := rows + [CostRow(labels[j], 0, base[j])] + after;
    }
    assert labels[..|labels|] == labels;
  }

  /** Every entry carries the dict of its cost list. */
  ghost predicate Consistent(base: seq<real>, entries: seq<Entry>) {
    forall i :: 0 <= i < |entries| ==> entries[i].cheaper == CheaperOf(entries[i].costs, base)
  }

  lemma {:induction false} QueryRowsAgree<Q>(tag: Q, j: nat, base: seq<real>, entries: seq<Entry>)
    requires Consistent(base, entries) && j < |base|
    ensures QueryRows(tag, j, base[j], entries, true) == QueryRows(tag, j, base[j], entries, false)
  {
    if |entries| > 0 {
      QueryRowsAgree(tag, j, base, entries[..|entries| - 1]);
    }
  }

  /** The list test and the dict test select the same rows with the same costs. */
  lemma {:induction false} RowsAgree<Q>(labels: seq<Q>, base: seq<real>, entries: seq<Entry>)
    requires Consistent(base, entries) && |labels| <= |base|
    ensures Rows(labels, base, entries, true) == Rows(labels, base, entries, false)
  {
    if |labels| > 0 {
      RowsAgree(labels[..|labels| - 1], base, entries);
      QueryRowsAgree(labels[|labels| - 1], |labels| - 1, base, entries);
    }
  }

  /** The recorded entries carry the dicts of their cost lists. */
  lemma RecordedConsistent(qs: seq<Query>, base: seq<real>, combs: seq<seq<Index>>, cost: (Query, set<Index>) -> real)
    ensures Consistent(base, Recorded(qs, base, combs, cost))
  {
    var entries := Recorded(qs, base, combs, cost);
    forall i | 0 <= i < |entries| ensures entries[i].cheaper == CheaperOf(entries[i].costs, base) {
      RecordedMeaning(qs, base, combs, cost, entries[i]);
    }
  }

  lemma {:induction false} QueryRowsMeaning<Q>(tag: Q, j: nat, b: real, entries: seq<Entry>, keyed: bool,
                                              row: CostRow<Q>)
    ensures row in QueryRows(tag, j, b, entries, keyed) <==>
      row.query == tag && 1 <= row.combination <= |entries| &&
      Lower(entries[row.combination - 1], j, b, keyed) && row.cost == LowerCost(entries[row.combination - 1], j, b, keyed)
  {
    if |entries| > 0 {
      var p := entries[..|entries| - 1];
      QueryRowsMeaning(tag, j, b, p, keyed, row);
      if 1 <= row.combination < |entries| {
        assert p[row.combination - 1] == entries[row.combination - 1];
      }
    }
  }

  /**
   * `param f4` has a base row for every query and otherwise exactly one
   * row per (query, recorded combination) where the combination makes the
   * query cheaper, with that cost.
   */
  lemma RowsMeaning<Q>(labels: seq<Q>, base: seq<real>, entries: seq<Entry>, keyed: bool, row: CostRow<Q>)
    requires |labels| <= |base|
    ensures forall j :: 0 <= j < |labels| ==> CostRow(labels[j], 0, base[j]) in Rows(labels, base, entries, keyed)
    ensures row in Rows(labels, base, entries, keyed) && row.combination == 0 ==>
      exists j :: 0 <= j < |labels| && row == CostRow(labels[j], 0, base[j])
    ensures row.combination > 0 ==>
      (row in Rows(labels, base, entries, keyed) <==>
        exists j :: 0 <= j < |labels| && row.query == labels[j] && row.combination <= |entries| &&
          Lower(entries[row.combination - 1], j, base[j], keyed) &&
          row.cost == LowerCost(entries[row.combination - 1], j, base[j], keyed))
  {
    forall j | 0 <= j < |labels| ensures CostRow(labels[j], 0, base[j]) in Rows(labels, base, entries, keyed) {
      RowsHaveBase(labels, base, entries, keyed, j);
    }
    if row in Rows(labels, base, entries, keyed) && row.combination == 0 {
      RowsZero(labels, base, entries, keyed, row);
    }
    if row.combination > 0 {
      RowsLater(labels, base, entries, keyed, row);
    }
  }

  /** `Rows` after one more query: the rows so far, its base row, then its cheaper combinations. */
  lemma RowsUnfold<Q>(labels: seq<Q>, base: seq<real>, entries: seq<Entry>, keyed: bool)
    requires 0 < |labels| <= |base|
    ensures var n := |labels| - 1;
      Rows(labels, base, entries, keyed) ==
        Rows(labels[..n], base, entries, keyed) + [CostRow(labels[n], 0, base[n])] +
        QueryRows(labels[n], n, base[n], entries, keyed)
  {
  }

  /** Every query has its base row. */
  lemma {:induction false} RowsHaveBase<Q>(labels: seq<Q>, base: seq<real>, entries: seq<Entry>, keyed: bool, j: nat)
    requires |labels| <= |base| && j < |labels|
    ensures CostRow(labels[j], 0, base[j]) in Rows(labels, base, entries, keyed)
  {
    var n := |labels| - 1;
    var p := labels[..n];
    RowsUnfold(labels, base, entries, keyed);
    if j < n {
      RowsHaveBase(p, base, entries, keyed, j);
      assert labels[j] == p[j];
    }
  }

  /** A row for combination 0 is a base row. */
  lemma {:induction false} RowsZero<Q>(labels: seq<Q>, base: seq<real>, entries: seq<Entry>, keyed: bool, row: CostRow<Q>)
    requires |labels| <= |base| && row in Rows(labels, base, entries, keyed) && row.combination == 0
    ensures exists j :: 0 <= j < |labels| && row == CostRow(labels[j], 0, base[j])
  {
    var n := |labels| - 1;
    var p := labels[..n];
    RowsUnfold(labels, base, entries, keyed);
    QueryRowsMeaning(labels[n], n, base[n], entries, keyed, row);
    if row in Rows(p, base, entries, keyed) {
      RowsZero(p, base, entries, keyed, row);
      var j :| 0 <= j < |p| && row == CostRow(p[j], 0, base[j]);
      assert labels[j] == p[j];
    } else {
      assert row == CostRow(labels[n], 0, base[n]);
    }
  }

  /** The rows for combinations above 0 are exactly the cheaper (query, combination) pairs. */
  lemma {:induction false} RowsLater<Q>(labels: seq<Q>, base: seq<real>, entries: seq<Entry>, keyed: bool, row: CostRow<Q>)
    requires |labels| <= |base| && row.combination > 0
    ensures row in Rows(labels, base, entries, keyed) <==>
      exists j :: 0 <= j < |labels| && row.query == labels[j] && row.combination <= |entries| &&
        Lower(entries[row.combination - 1], j, base[j], keyed) &&
        row.cost == LowerCost(entries[row.combination - 1], j, base[j], keyed)
  {
    if |labels| > 0 {
      var n := |labels| - 1;
      var p := labels[..n];
      RowsUnfold(labels, base, entries, keyed);
      RowsLater(p, base, entries, keyed, row);
      QueryRowsMeaning(labels[n], n, base[n], entries, keyed, row);
      if row in Rows(p, base, entries, keyed) {
        var j :| 0 <= j < |p| && row.query == p[j] && row.combination <= |entries| &&
          Lower(entries[row.combination - 1], j, base[j], keyed) &&
          row.cost == LowerCost(entries[row.combination - 1], j, base[j], keyed);
        assert labels[j] == p[j];
      }
      if exists j :: 0 <= j < |labels| && row.query == labels[j] && row.combination <= |entries| &&
          Lower(entries[row.combination - 1], j, base[j], keyed) &&
          row.cost == LowerCost(entries[row.combination - 1], j, base[j], keyed) {
        var j :| 0 <= j < |labels| && row.query == labels[j] && row.combination <= |entries| &&
          Lower(entries[row.combination - 1], j, base[j], keyed) &&
          row.cost == LowerCost(entries[row.combination - 1], j, base[j], keyed);
        if j < n { assert labels[j] == p[j]; }
      }
    }
  }

  // ------------------------------------------------------ the whole enumeration

  /** What the enumeration leaves for the output: base costs, candidates, recorded combinations and useful indexes. */
  datatype Enumeration = Enumeration(base: seq<real>, candidates: seq<Index>, entries: seq<Entry>, useful: seq<Index>)

  /** Lines 23-57 for a workload's queries, with the useful indexes starting from `seed`. */
  function Enumerated(qs: seq<Query>, maxWidth: int, maxPer: int, cost: (Query, set<Index>) -> real,
                      seed: seq<Index>): Enumeration
  {
    var base := CostsUnder(qs, {}, cost);
    var candidates := Candidates(qs, maxWidth);
    var entries := Recorded(qs, base, AllCombinations(candidates, maxPer), cost);
    Enumeration(base, candidates, entries, AddAll(seed, IndexesIn(entries)))
  }

  method Enumerate(qs: seq<Query>, maxWidth: int, maxPer: int, cost: (Query, set<Index>) -> real, seed: seq<Index>)
    returns (r: Enumeration)
    ensures r == Enumerated(qs, maxWidth, maxPer, cost, seed)
  {
    var base := CostsWithoutIndexes(qs, cost);
    var candidates := CandidateIndexes(qs, maxWidth);
    var entries, useful := EnumerateCombinations(qs, base, candidates, maxPer, cost, seed);
    r := Enumeration(base, candidates, entries, useful);
  }

  /**
   * The properties of the enumeration together: base costs are the
   * queries' costs without indexes; every recorded combination is an
   * enumerated choice of 1 to `maxPer` distinct candidates that makes some
   * query strictly cheaper, with its costs in workload order; every such
   * choice is recorded; the useful indexes are the seed and the indexes of
   * recorded combinations, each once.
   */
  lemma EnumeratedMeaning(qs: seq<Query>, maxWidth: int, maxPer: int, cost: (Query, set<Index>) -> real,
                          seed: seq<Index>, comb: seq<Index>, ix: Index)
    requires Distinct(seed)
    ensures var r := Enumerated(qs, maxWidth, maxPer, cost, seed);
      |r.base| == |qs| && (forall j :: 0 <= j < |qs| ==> r.base[j] == QueryCost(cost, qs[j], {})) &&
      Distinct(r.candidates) &&
      (EntryOf(qs, r.base, comb, cost) in r.entries <==>
        1 <= |comb| <= maxPer && IsSubsequence(comb, r.candidates) && IsUseful(EntryOf(qs, r.base, comb, cost).costs, r.base)) &&
      (forall e :: e in r.entries ==>
         e == EntryOf(qs, r.base, e.combination, cost) &&
         Distinct(e.combination) && SetOf(e.combination) <= SetOf(r.candidates)) &&
      Distinct(r.useful) &&
      (ix in r.useful <==> ix in seed || exists e :: e in r.entries && ix in e.combination)
  {
    var r := Enumerated(qs, maxWidth, maxPer, cost, seed);
    var combs := AllCombinations(r.candidates, maxPer);
    forall j | 0 <= j < |qs| ensures r.base[j] == QueryCost(cost, qs[j], {}) {
      CostsUnderAt(qs, {}, cost, j);
    }
    CandidatesMeaning(qs, maxWidth, ix);
    RecordedMeaning(qs, r.base, combs, cost, EntryOf(qs, r.base, comb, cost));
    AllCombinationsMeaning(r.candidates, maxPer, comb);
    forall e | e in r.entries
      ensures e == EntryOf(qs, r.base, e.combination, cost) && Distinct(e.combination) && SetOf(e.combination) <= SetOf(r.candidates)
    {
      RecordedMeaning(qs, r.base, combs, cost, e);
      AllCombinationsMeaning(r.candidates, maxPer, e.combination);
    }
    UsefulIndexesMeaning(seed, r.entries, ix);
  }

  // ------------------------------------------------------ output records

  /**
   * A piece of the AMPL data: literal text exactly as written (a `print`
   * adds its newline to the text), or one record with its line ending.
   * Sizes and costs stay numbers; their decimal form is not modelled.
   */
  datatype Line<Q> = Text(text: string) | SizeLine(index: IndexRow) | CostLine(row: CostRow<Q>)

  /** `set combi[<id>]:= <ids>;` without its line ending. */
  function CombiText(row: CombiRow): string {
    "set combi[" + NatToString(row.id) + "]:= " + row.indexIds + ";"
  }

  function SizeLines<Q>(rows: seq<IndexRow>): (r: seq<Line<Q>>)
    ensures |r| == |rows|
  {
    if |rows| == 0 then [] else SizeLines(rows[..|rows| - 1]) + [SizeLine(rows[|rows| - 1])]
  }

  /** The combi lines, each text followed by `ending`. */
  function CombiLines<Q>(rows: seq<CombiRow>, ending: string): (r: seq<Line<Q>>)
    ensures |r| == |rows|
  {
    if |rows| == 0 then [] else CombiLines(rows[..|rows| - 1], ending) + [Text(CombiText(rows[|rows| - 1]) + ending)]
  }

  function CostLines<Q>(rows: seq<CostRow<Q>>): (r: seq<Line<Q>>)
    ensures |r| == |rows|
  {
    if |rows| == 0 then [] else CostLines(rows[..|rows| - 1]) + [CostLine(rows[|rows| - 1])]
  }

  /** The lines carry exactly the rows, in order. */
  lemma {:induction false} LinesMeaning<Q>(sizes: seq<IndexRow>, combis: seq<CombiRow>, ending: string,
                                          costs: seq<CostRow<Q>>, line: Line<Q>)
    ensures line in SizeLines<Q>(sizes) <==> line.SizeLine? && line.index in sizes
    ensures forall i :: 0 <= i < |sizes| ==> SizeLines<Q>(sizes)[i] == SizeLine(sizes[i])
    ensures line in CombiLines<Q>(combis, ending) ==> line.Text?
    ensures forall i :: 0 <= i < |combis| ==> CombiLines<Q>(combis, ending)[i] == Text(CombiText(combis[i]) + ending)
    ensures line in CostLines(costs) <==> line.CostLine? && line.row in costs
    decreases |sizes| + |combis| + |costs|
  {
    if |sizes| > 0 {
      LinesMeaning<Q>(sizes[..|sizes| - 1], [], ending, [], line);
      assert sizes == sizes[..|sizes| - 1] + [sizes[|sizes| - 1]];
    }
    if |combis| > 0 {
      LinesMeaning<Q>([], combis[..|combis| - 1], ending, [], line);
    }
    if |costs| > 0 {
      LinesMeaning<Q>([], [], ending, costs[..|costs| - 1], line);
      assert costs == costs[..|costs| - 1] + [costs[|costs| - 1]];
    }
  }

  /** `1, 2, ..., n`: the 1-based workload positions. */
  function Positions(n: nat): (r: seq<nat>)
    ensures |r| == n
  {
    if n == 0 then [] else Positions(n - 1) + [n]
  }

  lemma {:induction false} PositionsAt(n: nat, j: nat)
    requires j < n
    ensures Positions(n)[j] == j + 1
  {
    if j < n - 1 {
      PositionsAt(n - 1, j);
    }
  }

  /** With a repetition-free seed, the sorted useful indexes are numbered and cover every recorded combination. */
  lemma EnumerationNumbered(qs: seq<Query>, maxWidth: int, maxPer: int, cost: (Query, set<Index>) -> real,
                            seed: seq<Index>, sizeOf: Index -> nat)
    requires Distinct(seed)
    ensures var e := Enumerated(qs, maxWidth, maxPer, cost, seed);
      var sorted := SortTupleIndexes(e.useful);
      Distinct(sorted) && Numbered(sorted, sizeOf, IndexRowsOf(sorted, sizeOf), IdsOf(sorted)) &&
      AllNumbered(e.entries, IdsOf(sorted))
  {
    var e := Enumerated(qs, maxWidth, maxPer, cost, seed);
    var sorted := SortTupleIndexes(e.useful);
    UsefulIndexesMeaning(seed, e.entries, if |seed| > 0 then seed[0] else Index([]));
    SortedUseful(e.useful);
    NumberedOf(sorted, sizeOf);
    RecordedNumbered(seed, e.entries, sizeOf, IndexRowsOf(sorted, sizeOf), IdsOf(sorted));
  }

  // ------------------------------------------------------ the three tables

  /** The `query.nr` of every query, in workload order. */
  function QueryNumbers(qs: seq<Query>): (r: seq<QueryNr>)
    ensures |r| == |qs| && forall j :: 0 <= j < |qs| ==> r[j] == qs[j].nr
  {
    seq(|qs|, j requires 0 <= j < |qs| => qs[j].nr)
  }

  /** The rows of `param a`, of the `combi` sets and of `param f4`. */
  datatype Tables<Q> = Tables(sizes: seq<IndexRow>, combis: seq<CombiRow>, costs: seq<CostRow<Q>>)

  /**
   * The tables for an enumeration whose useful indexes start from `seed`,
   * with the queries tagged by `labels` in `f4`; the AssertionError when a
   * useful index has no size.
   */
  function Tabulated<Q>(qs: seq<Query>, maxWidth: int, maxPer: int, cost: (Query, set<Index>) -> real,
                        seed: seq<Index>, sizeOf: Index -> nat, labels: seq<Q>, keyed: bool): Result<Tables<Q>>
    requires |labels| == |qs|
  {
    var e := Enumerated(qs, maxWidth, maxPer, cost, seed);
    if !AllSized(e.useful, sizeOf) then Err("AssertionError")
    else
      var sorted := SortTupleIndexes(e.useful);
      Ok(Tables(IndexRowsOf(sorted, sizeOf), CombiRowsOf(e.entries, IdsOf(sorted)), Rows(labels, e.base, e.entries, keyed)))
  }

  /** The enumeration, the numbering and the two printing loops. */
  method Tabulate<Q>(qs: seq<Query>, maxWidth: int, maxPer: int, cost: (Query, set<Index>) -> real,
                     seed: seq<Index>, sizeOf: Index -> nat, labels: seq<Q>, keyed: bool)
    returns (r: Result<Tables<Q>>)
    requires |labels| == |qs|
    ensures r == Tabulated(qs, maxWidth, maxPer, cost, seed, sizeOf, labels, keyed)
  {
    var e := Enumerate(qs, maxWidth, maxPer, cost, seed);
    var numbering, ids := NumberIndexes(e.useful, sizeOf);
    if numbering.Err? {
      return Err(numbering.error);
    }
    var combis := CombinationRows(e.entries, ids);
    var costs := CostRows(labels, e.base, e.entries, keyed);
    r := Ok(Tables(numbering.value, combis, costs));
  }

  /** The tables fail exactly when some useful index has no size, with an AssertionError. */
  lemma TabulatedFails<Q>(qs: seq<Query>, maxWidth: int, maxPer: int, cost: (Query, set<Index>) -> real,
                          seed: seq<Index>, sizeOf: Index -> nat, labels: seq<Q>, keyed: bool)
    requires Distinct(seed) && |labels| == |qs|
    ensures var t := Tabulated(qs, maxWidth, maxPer, cost, seed, sizeOf, labels, keyed);
      var useful := Enumerated(qs, maxWidth, maxPer, cost, seed).useful;
      (t.Err? <==> exists k :: 0 <= k < |useful| && SizeOf(sizeOf, useful[k]) == 0) &&
      (t.Err? ==> t.error == "AssertionError")
  {
  }

  /**
   * `param a`: the useful indexes, sorted and each once, get ids 1..n in
   * that order, with their sizes and column names.
   */
  lemma TabulatedSizes<Q>(qs: seq<Query>, maxWidth: int, maxPer: int, cost: (Query, set<Index>) -> real,
                          seed: seq<Index>, sizeOf: Index -> nat, labels: seq<Q>, keyed: bool)
    requires Distinct(seed) && |labels| == |qs|
    ensures var t := Tabulated(qs, maxWidth, maxPer, cost, seed, sizeOf, labels, keyed);
      var useful := Enumerated(qs, maxWidth, maxPer, cost, seed).useful;
      var sorted := SortTupleIndexes(useful);
      t.Ok? ==>
        SortedBy(sorted, TupleIndexLe) && Distinct(sorted) && SetOf(sorted) == SetOf(useful) &&
        |t.value.sizes| == |sorted| &&
        forall i :: 0 <= i < |sorted| ==>
          t.value.sizes[i] == IndexRow(i + 1, SizeOf(sizeOf, sorted[i]), ColumnNames(sorted[i])) &&
          SizeOf(sizeOf, sorted[i]) > 0
  {
    var t := Tabulated(qs, maxWidth, maxPer, cost, seed, sizeOf, labels, keyed);
    var useful := Enumerated(qs, maxWidth, maxPer, cost, seed).useful;
    if t.Ok? {
      EnumerationNumbered(qs, maxWidth, maxPer, cost, seed, sizeOf);
      var ix := if |seed| > 0 then seed[0] else Index([]);
      UsefulIndexesMeaning(seed, Enumerated(qs, maxWidth, maxPer, cost, seed).entries, ix);
      SortedUseful(useful);
      AllSizedSorted(useful, sizeOf);
    }
  }

  /**
   * `combi[i]` for i = 1..m lists, joined by ' ', the ids of the i-th
   * recorded combination's indexes, which decode through `param a` back
   * to those indexes, in order.
   */
  lemma TabulatedCombis<Q>(qs: seq<Query>, maxWidth: int, maxPer: int, cost: (Query, set<Index>) -> real,
                           seed: seq<Index>, sizeOf: Index -> nat, labels: seq<Q>, keyed: bool, i: nat)
    requires Distinct(seed) && |labels| == |qs|
    ensures var t := Tabulated(qs, maxWidth, maxPer, cost, seed, sizeOf, labels, keyed);
      var e := Enumerated(qs, maxWidth, maxPer, cost, seed);
      var sorted := SortTupleIndexes(e.useful);
      t.Ok? ==>
        |t.value.combis| == |e.entries| &&
        (i < |e.entries| ==>
          var comb := e.entries[i].combination;
          var ids := IdList(IdsOf(sorted), comb);
          t.value.combis[i] == CombiRow(i + 1, Join(" ", IdStrings(ids))) &&
          forall k :: 0 <= k < |comb| ==> 1 <= ids[k] <= |sorted| && sorted[ids[k] - 1] == comb[k])
  {
    var t := Tabulated(qs, maxWidth, maxPer, cost, seed, sizeOf, labels, keyed);
    var e := Enumerated(qs, maxWidth, maxPer, cost, seed);
    var sorted := SortTupleIndexes(e.useful);
    if t.Ok? {
      var ids := IdsOf(sorted);
      var combis := t.value.combis;
      assert combis == CombiRowsOf(e.entries, ids);
      EnumerationNumbered(qs, maxWidth, maxPer, cost, seed, sizeOf);
      CombiAt(sorted, sizeOf, IndexRowsOf(sorted, sizeOf), ids, e.entries, combis, i);
    }
  }

  /** The `combi` facts of one recorded combination, on the numbering and the entries as plain values. */
  lemma CombiAt(sorted: seq<Index>, sizeOf: Index -> nat, rows: seq<IndexRow>, ids: map<Index, nat>,
                entries: seq<Entry>, combis: seq<CombiRow>, i: nat)
    requires Numbered(sorted, sizeOf, rows, ids) && AllNumbered(entries, ids)
    requires combis == CombiRowsOf(entries, ids)
    ensures |combis| == |entries|
    ensures i < |entries| ==>
      var comb := entries[i].combination;
      var l := IdList(ids, comb);
      combis[i] == CombiRow(i + 1, Join(" ", IdStrings(l))) &&
      forall k :: 0 <= k < |comb| ==> 1 <= l[k] <= |sorted| && sorted[l[k] - 1] == comb[k]
  {
    if i < |entries| {
      CombiRowsOfAt(entries, ids, i);
      var comb := entries[i].combination;
      assert SetOf(comb) <= ids.Keys;
      IdListDecodes(sorted, sizeOf, rows, ids, comb);
    }
  }

  /**
   * `param f4`, whichever test selects the rows: the base row of every
   * query, no other row for combination 0, and a row (q, i, c) for i > 0
   * exactly when the i-th recorded combination makes the query tagged q
   * strictly cheaper than without indexes, c being its cost then.
   */
  lemma TabulatedCosts<Q>(qs: seq<Query>, maxWidth: int, maxPer: int, cost: (Query, set<Index>) -> real,
                          seed: seq<Index>, sizeOf: Index -> nat, labels: seq<Q>, keyed: bool, row: CostRow<Q>)
    requires Distinct(seed) && |labels| == |qs|
    ensures var t := Tabulated(qs, maxWidth, maxPer, cost, seed, sizeOf, labels, keyed);
      var e := Enumerated(qs, maxWidth, maxPer, cost, seed);
      t.Ok? ==>
        (forall j :: 0 <= j < |qs| ==> CostRow(labels[j], 0, e.base[j]) in t.value.costs) &&
        (row in t.value.costs && row.combination == 0 ==>
          exists j :: 0 <= j < |qs| && row == CostRow(labels[j], 0, e.base[j])) &&
        (row.combination > 0 ==>
          (row in t.value.costs <==>
            row.combination <= |e.entries| && |e.entries[row.combination - 1].costs| == |qs| &&
            exists j :: 0 <= j < |qs| && row.query == labels[j] &&
              e.entries[row.combination - 1].costs[j] < e.base[j] &&
              row.cost == e.entries[row.combination - 1].costs[j]))
  {
    var t := Tabulated(qs, maxWidth, maxPer, cost, seed, sizeOf, labels, keyed);
    var e := Enumerated(qs, maxWidth, maxPer, cost, seed);
    if t.Ok? {
      var combs := AllCombinations(e.candidates, maxPer);
      RecordedConsistent(qs, e.base, combs, cost);
      RowsAgree(labels, e.base, e.entries);
      RowsMeaning(labels, e.base, e.entries, false, row);
      if 0 < row.combination <= |e.entries| {
        RecordedMeaning(qs, e.base, combs, cost, e.entries[row.combination - 1]);
      }
    }
  }
}
