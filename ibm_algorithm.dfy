/**
 * selection/algorithms/ibm_algorithm.py: the DB2 advisor strategy. For
 * every query, all possible indexes (every ordering of up to
 * `max_index_columns` columns of one table) are simulated at once, and the
 * ones the optimiser's plan mentions are recommended. A candidate's benefit
 * is what the queries recommending it save; candidates are ranked by
 * benefit per byte, an index subsumed by a better-ranked one is merged into
 * it, and the ranking is packed into the disk budget in order.
 *
 * The recommendation helpers are shared, unchanged, by the relaxation and
 * DTA strategies, which import them from here.
 */
module IbmAlgorithm {
  import opened Common
  import opened Schema
  import opened Indexes
  import opened Workloads
  import opened Database
  import opened WhatIf
  import opened Search
  import opened SelectionAlgorithms

  const MaxIndexColumnsDefault := 3
  const BudgetDefault := 500
  const TryVariationSecondsLimitDefault := 10
  const TryVariationMaximumRemoveDefault := 4

  /** `DEFAULT_PARAMETERS`. */
  function DefaultParameters(): (p: Params)
    ensures p.Keys == {"max_index_columns", "budget", "try_variation_seconds_limit", "try_variation_maximum_remove"}
  {
    map["max_index_columns" := IntParam(MaxIndexColumnsDefault),
        "budget" := IntParam(BudgetDefault),
        "try_variation_seconds_limit" := IntParam(TryVariationSecondsLimitDefault),
        "try_variation_maximum_remove" := IntParam(TryVariationMaximumRemoveDefault)]
  }

  /** The settings `__init__` derives from the merged parameters; the budget is in bytes. */
  datatype Settings = Settings(maxIndexColumns: int, diskConstraint: int, secondsLimit: int, maximumRemove: int)

  /** An integer parameter; a missing or non-integer one is not modelled. */
  function IntSetting(p: Params, key: string): Option<int> {
    if key in p && p[key].IntParam? then Some(p[key].n) else None
  }

  /** `__init__`: `disk_constraint` is the budget in MB times 1,000,000. */
  function SettingsOf(p: Params): (r: Option<Settings>)
    ensures r.Some? <==>
      IntSetting(p, "max_index_columns").Some? && IntSetting(p, "budget").Some? &&
      IntSetting(p, "try_variation_seconds_limit").Some? && IntSetting(p, "try_variation_maximum_remove").Some?
    ensures r.Some? ==> r.value.diskConstraint == IntSetting(p, "budget").value * 1000000
  {
    var cols := IntSetting(p, "max_index_columns");
    var budget := IntSetting(p, "budget");
    var seconds := IntSetting(p, "try_variation_seconds_limit");
    var remove := IntSetting(p, "try_variation_maximum_remove");
    if cols.Some? && budget.Some? && seconds.Some? && remove.Some? then
      Some(Settings(cols.value, budget.value * 1000000, seconds.value, remove.value))
    else None
  }

  /** With the defaults: three columns, 500,000,000 bytes, ten seconds, four removals. */
  lemma DefaultSettings()
    ensures SettingsOf(DefaultParameters()) == Some(Settings(3, 500000000, 10, 4))
  {
    var p := DefaultParameters();
    assert IntSetting(p, "budget") == Some(500);
    assert IntSetting(p, "max_index_columns") == Some(3);
    assert IntSetting(p, "try_variation_seconds_limit") == Some(10);
    assert IntSetting(p, "try_variation_maximum_remove") == Some(4);
  }

  // ------------------------------------------------------------ possible indexes

  /** The tables of the columns in first-seen order: the keys of `indexable_columns_per_table`. */
  function TablesOf(cols: seq<Column>): seq<string> {
    if |cols| == 0 then []
    else
      var rest := TablesOf(cols[..|cols| - 1]);
      var t := cols[|cols| - 1].table;
      if t in rest then rest else rest + [t]
  }

  /** Each table once, and exactly the tables of the columns. */
  lemma {:induction false} TablesOfMembers(cols: seq<Column>)
    ensures Distinct(TablesOf(cols))
    ensures forall c :: c in cols ==> c.table in TablesOf(cols)
    ensures forall c :: c in TablesOf(cols) ==> exists k :: 0 <= k < |cols| && cols[k].table == c
  {
    if |cols| > 0 {
      var init := cols[..|cols| - 1];
      TablesOfMembers(init);
      assert cols == init + [cols[|cols| - 1]];
      forall t | t in TablesOf(cols) ensures exists k :: 0 <= k < |cols| && cols[k].table == t {
        if t in TablesOf(init) {
          var k :| 0 <= k < |init| && init[k].table == t;
          assert cols[k] == init[k];
        } else {
          assert cols[|cols| - 1].table == t;
        }
      }
    }
  }

  lemma TablesOfStep(cols: seq<Column>, c: Column)
    ensures TablesOf(cols + [c]) == if c.table in TablesOf(cols) then TablesOf(cols) else TablesOf(cols) + [c.table]
  {
    assert (cols + [c])[..|cols|] == cols;
  }

  predicate OnTable(t: string, c: Column) {
    c.table == t
  }

  /** The set `indexable_columns_per_table[t]`: the table's columns, each once. */
  function ColumnsOfTable(cols: seq<Column>, t: string): seq<Column> {
    Dedup(Filter(cols, c => OnTable(t, c)))
  }

  lemma ColumnsOfTableMembers(cols: seq<Column>, t: string)
    ensures Distinct(ColumnsOfTable(cols, t))
    ensures forall c :: c in ColumnsOfTable(cols, t) <==> c in cols && c.table == t
  {
  }

  lemma ColumnsOfTableStep(cols: seq<Column>, c: Column, t: string)
    ensures ColumnsOfTable(cols + [c], t) ==
      if c.table != t then ColumnsOfTable(cols, t)
      else if c in ColumnsOfTable(cols, t) then ColumnsOfTable(cols, t)
      else ColumnsOfTable(cols, t) + [c]
  {
    FilterAppend(cols, c, c => OnTable(t, c));
    DedupAppend(Filter(cols, c => OnTable(t, c)), c);
  }

  /** A table none of the columns is on has no columns. */
  lemma {:induction false} ColumnsOfAbsentTable(cols: seq<Column>, t: string)
    requires t !in TablesOf(cols)
    ensures ColumnsOfTable(cols, t) == []
  {
    if |cols| > 0 {
      var init := cols[..|cols| - 1];
      var c := cols[|cols| - 1];
      assert cols == init + [c];
      TablesOfStep(init, c);
      ColumnsOfAbsentTable(init, t);
      ColumnsOfTableStep(init, c, t);
    }
  }

  /** The combinations after merging in the orderings of widths 1 .. `widths` of one table's columns. */
  function WithWidths(acc: seq<seq<Column>>, tcols: seq<Column>, widths: nat): seq<seq<Column>> {
    if widths == 0 then acc else Dedup(WithWidths(acc, tcols, widths - 1) + Permutations(tcols, widths))
  }

  /** The combinations after merging in every table of `tables` in turn. */
  function WithTables(acc: seq<seq<Column>>, cols: seq<Column>, tables: seq<string>, maxColumns: int): seq<seq<Column>> {
    if |tables| == 0 then acc
    else
      WithWidths(WithTables(acc, cols, tables[..|tables| - 1], maxColumns),
                 ColumnsOfTable(cols, tables[|tables| - 1]), RangeLength(maxColumns))
  }

  /** `possible_column_combinations` for a query. */
  function PossibleCombinations(q: Query, maxColumns: int): seq<seq<Column>> {
    WithTables([], q.columns, TablesOf(q.columns), maxColumns)
  }

  /** `[Index(p) for p in combinations]`. */
  function IndexesOf(combos: seq<seq<Column>>): seq<Index> {
    seq(|combos|, k requires 0 <= k < |combos| => Index(combos[k]))
  }

  /** One index per combination, in order; repetition-free combinations give repetition-free indexes. */
  lemma IndexesOfMembers(combos: seq<seq<Column>>)
    ensures |IndexesOf(combos)| == |combos|
    ensures forall ix: Index :: ix in IndexesOf(combos) <==> ix.columns in combos
    ensures Distinct(combos) ==> Distinct(IndexesOf(combos))
  {
    var r := IndexesOf(combos);
    assert forall ix :: ix in r ==> ix.columns in combos by {
      forall ix | ix in r ensures ix.columns in combos {
        var k :| 0 <= k < |r| && r[k] == ix;
      }
    }
    assert forall ix: Index :: ix.columns in combos ==> ix in r by {
      forall ix: Index | ix.columns in combos ensures ix in r {
        var k :| 0 <= k < |combos| && combos[k] == ix.columns;
        assert r[k] == ix;
      }
    }
  }

  /** What `_possible_indexes` returns for a query. */
  function PossibleIndexesOf(q: Query, maxColumns: int): seq<Index> {
    IndexesOf(PossibleCombinations(q, maxColumns))
  }

  /**
   * A column combination `_possible_indexes` may produce: 1 .. `maxColumns`
   * distinct columns of the query, all on the first one's table.
   */
  predicate IsCombination(cols: seq<Column>, maxColumns: int, p: seq<Column>) {
    1 <= |p| <= maxColumns && Distinct(p) && forall x :: x in p ==> x in cols && x.table == p[0].table
  }

  /** An ordering is among the `k`-permutations exactly when it has `k` distinct elements of `s`. */
  lemma PermutationsExactly<T(!new)>(s: seq<T>, k: nat, p: seq<T>)
    requires Distinct(s)
    ensures p in Permutations(s, k) <==> |p| == k && Distinct(p) && forall x :: x in p ==> x in s
  {
    PermutationsSound(s, k);
    if |p| == k && Distinct(p) && forall x :: x in p ==> x in s {
      PermutationsComplete(s, k, p);
    }
  }

  lemma DedupConcatMember<T(!new)>(a: seq<T>, b: seq<T>, x: T)
    ensures x in Dedup(a + b) <==> x in a || x in b
  {
  }

  /** Merging in widths 1 .. `widths` adds exactly the orderings of those widths. */
  lemma {:induction false} WithWidthsMembers(acc: seq<seq<Column>>, tcols: seq<Column>, widths: nat, p: seq<Column>)
    requires Distinct(tcols)
    ensures p in WithWidths(acc, tcols, widths) <==>
      p in acc || (1 <= |p| <= widths && Distinct(p) && forall x :: x in p ==> x in tcols)
  {
    if widths > 0 {
      var prev := WithWidths(acc, tcols, widths - 1);
      var perms := Permutations(tcols, widths);
      assert WithWidths(acc, tcols, widths) == Dedup(prev + perms);
      DedupConcatMember(prev, perms, p);
      WithWidthsMembers(acc, tcols, widths - 1, p);
      PermutationsExactly(tcols, widths, p);
    }
  }

  /** After merging in `tables`, the combinations are those on one of them. */
  lemma {:induction false} WithTablesMembers(cols: seq<Column>, tables: seq<string>, maxColumns: int, p: seq<Column>)
    ensures p in WithTables([], cols, tables, maxColumns) <==>
      IsCombination(cols, maxColumns, p) && p[0].table in tables
  {
    if |tables| > 0 {
      var init := tables[..|tables| - 1];
      var t := tables[|tables| - 1];
      assert tables == init + [t];
      WithTablesMembers(cols, init, maxColumns, p);
      ColumnsOfTableMembers(cols, t);
      WithWidthsMembers(WithTables([], cols, init, maxColumns), ColumnsOfTable(cols, t), RangeLength(maxColumns), p);
      if p !in WithTables([], cols, init, maxColumns) && 1 <= |p| && p[0].table == t {
        assert p[0] in p;
      }
    }
  }

  /**
   * `_possible_indexes` yields exactly the indexes on 1 .. `max_index_columns`
   * distinct columns of the query that share one table.
   */
  lemma PossibleIndexesExactly(q: Query, maxColumns: int, ix: Index)
    ensures ix in PossibleIndexesOf(q, maxColumns) <==> IsCombination(q.columns, maxColumns, ix.columns)
  {
    TablesOfMembers(q.columns);
    IndexesOfMembers(PossibleCombinations(q, maxColumns));
    WithTablesMembers(q.columns, TablesOf(q.columns), maxColumns, ix.columns);
    if IsCombination(q.columns, maxColumns, ix.columns) {
      assert ix.columns[0] in ix.columns;
    }
  }

  lemma {:induction false} WithTablesDistinct(cols: seq<Column>, tables: seq<string>, maxColumns: int)
    ensures Distinct(WithTables([], cols, tables, maxColumns))
  {
    if |tables| > 0 && RangeLength(maxColumns) == 0 {
      WithTablesDistinct(cols, tables[..|tables| - 1], maxColumns);
    }
  }

  /** No index is produced twice. */
  lemma PossibleIndexesDistinct(q: Query, maxColumns: int)
    ensures Distinct(PossibleIndexesOf(q, maxColumns))
  {
    WithTablesDistinct(q.columns, TablesOf(q.columns), maxColumns);
    IndexesOfMembers(PossibleCombinations(q, maxColumns));
  }

  /** The number of orderings of 1 .. `widths` of `n` items. */
  function FallingSum(n: nat, widths: nat): nat {
    if widths == 0 then 0 else FallingSum(n, widths - 1) + Falling(n, widths)
  }

  /** Orderings of different widths never coincide, so the widths' counts add up. */
  lemma {:induction false} WithWidthsCount(tcols: seq<Column>, widths: nat)
    requires Distinct(tcols)
    ensures |WithWidths([], tcols, widths)| == FallingSum(|tcols|, widths)
  {
    if widths > 0 {
      var prev := WithWidths([], tcols, widths - 1);
      var perms := Permutations(tcols, widths);
      WithWidthsCount(tcols, widths - 1);
      PermutationsCount(tcols, widths);
      PermutationsDistinct(tcols, widths);
      assert Distinct(prev) by {
        if widths - 1 == 0 {
          assert prev == [];
        }
      }
      WidthsDisjoint(tcols, widths);
      DistinctConcat(prev, perms);
      DedupDistinct(prev + perms);
      assert WithWidths([], tcols, widths) == Dedup(prev + perms);
    }
  }

  /** The orderings of a new width are none of the narrower ones. */
  lemma WidthsDisjoint(tcols: seq<Column>, widths: nat)
    requires Distinct(tcols) && widths > 0
    ensures forall p :: p in WithWidths([], tcols, widths - 1) ==> p !in Permutations(tcols, widths)
  {
    forall p | p in WithWidths([], tcols, widths - 1) ensures p !in Permutations(tcols, widths) {
      WithWidthsMembers([], tcols, widths - 1, p);
      PermutationsExactly(tcols, widths, p);
    }
  }

  lemma {:induction false} TablesOfOneTable(cols: seq<Column>)
    requires |cols| > 0 && forall k :: 0 <= k < |cols| ==> cols[k].table == cols[0].table
    ensures TablesOf(cols) == [cols[0].table]
  {
    if |cols| > 1 {
      var init := cols[..|cols| - 1];
      assert init[0] == cols[0];
      TablesOfOneTable(init);
    }
  }

  lemma {:induction false} ColumnsOfWholeTable(cols: seq<Column>, t: string)
    requires Distinct(cols) && forall k :: 0 <= k < |cols| ==> cols[k].table == t
    ensures ColumnsOfTable(cols, t) == cols
  {
    if |cols| > 0 {
      var init := cols[..|cols| - 1];
      var c := cols[|cols| - 1];
      assert cols == init + [c];
      assert Distinct(init) && forall k :: 0 <= k < |init| ==> init[k].table == t by {
        forall k | 0 <= k < |init| ensures init[k] == cols[k] {
        }
      }
      ColumnsOfWholeTable(init, t);
      ColumnsOfTableStep(init, c, t);
    }
  }

  /**
   * On a query whose distinct columns all lie on one table, the count is
   * the number of orderings of 1 .. `max_index_columns` of them.
   */
  lemma OneTableCount(q: Query, maxColumns: int)
    requires Distinct(q.columns) && |q.columns| > 0
    requires forall k :: 0 <= k < |q.columns| ==> q.columns[k].table == q.columns[0].table
    ensures |PossibleIndexesOf(q, maxColumns)| == FallingSum(|q.columns|, RangeLength(maxColumns))
  {
    var t := q.columns[0].table;
    TablesOfOneTable(q.columns);
    ColumnsOfWholeTable(q.columns, t);
    assert [t][..0] == [];
    assert WithTables([], q.columns, [t], maxColumns) ==
      WithWidths(WithTables([], q.columns, [], maxColumns), ColumnsOfTable(q.columns, t), RangeLength(maxColumns));
    assert PossibleCombinations(q, maxColumns) == WithWidths([], q.columns, RangeLength(maxColumns));
    WithWidthsCount(q.columns, RangeLength(maxColumns));
    IndexesOfMembers(PossibleCombinations(q, maxColumns));
  }

  /** One column gives one index; three columns of one table give 9 at width 2 and 15 at width 3. */
  lemma PossibleIndexesExamples(q1: Query, q3: Query)
    requires |q1.columns| == 1
    requires |q3.columns| == 3 && Distinct(q3.columns)
    requires q3.columns[1].table == q3.columns[0].table && q3.columns[2].table == q3.columns[0].table
    ensures |PossibleIndexesOf(q1, 2)| == 1
    ensures |PossibleIndexesOf(q3, 2)| == 9 && |PossibleIndexesOf(q3, 3)| == 15
  {
    OneTableCount(q1, 2);
    OneTableCount(q3, 2);
    OneTableCount(q3, 3);
  }

  /** `indexable_columns_per_table` after the loop over `cols`. */
  function Grouped(cols: seq<Column>): map<string, seq<Column>> {
    if |cols| == 0 then map[]
    else
      var g := Grouped(cols[..|cols| - 1]);
      var c := cols[|cols| - 1];
      var current := if c.table in g then g[c.table] else [];
      g[c.table := if c in current then current else current + [c]]
  }

  lemma GroupedStep(cols: seq<Column>, c: Column)
    ensures var g := Grouped(cols);
      var current := if c.table in g then g[c.table] else [];
      Grouped(cols + [c]) == g[c.table := if c in current then current else current + [c]]
  {
    assert (cols + [c])[..|cols|] == cols;
  }

  lemma {:induction false} GroupedKey(cols: seq<Column>, t: string)
    ensures t in Grouped(cols) <==> t in TablesOf(cols)
  {
    if |cols| > 0 {
      var init := cols[..|cols| - 1];
      var c := cols[|cols| - 1];
      assert cols == init + [c];
      GroupedKey(init, t);
      TablesOfStep(init, c);
      GroupedStep(init, c);
    }
  }

  /** The dict has one entry per table of the columns, holding that table's columns. */
  lemma {:induction false} GroupedMeaning(cols: seq<Column>)
    ensures forall t :: t in Grouped(cols) <==> t in TablesOf(cols)
    ensures forall t :: t in Grouped(cols) ==> Grouped(cols)[t] == ColumnsOfTable(cols, t)
  {
    if |cols| > 0 {
      var init := cols[..|cols| - 1];
      var c := cols[|cols| - 1];
      assert cols == init + [c];
      GroupedMeaning(init);
      TablesOfStep(init, c);
      if c.table !in Grouped(init) {
        ColumnsOfAbsentTable(init, c.table);
      }
      forall t | t in Grouped(cols) ensures Grouped(cols)[t] == ColumnsOfTable(cols, t) {
        ColumnsOfTableStep(init, c, t);
      }
    }
  }

  /** The loop that fills `indexable_columns_per_table`: each table's columns as a set, tables in first-seen order. */
  method GroupByTable(cols: seq<Column>) returns (tables: seq<string>, perTable: map<string, seq<Column>>)
    ensures tables == TablesOf(cols)
    ensures forall t :: t in perTable <==> t in tables
    ensures forall t :: t in perTable ==> perTable[t] == ColumnsOfTable(cols, t)
  {
    tables := [];
    perTable := map[];
    var i := 0;
    while i < |cols|
      invariant 0 <= i <= |cols|
      invariant tables == TablesOf(cols[..i]) && perTable == Grouped(cols[..i])
    {
      var c := cols[i];
      assert cols[..i + 1] == cols[..i] + [c];
      TablesOfStep(cols[..i], c);
      GroupedStep(cols[..i], c);
      GroupedKey(cols[..i], c.table);
      ghost var before := perTable;
      ghost var current := if c.table in before then before[c.table] else [];
      if c.table !in perTable {
        perTable := perTable[c.table := []];
        tables := tables + [c.table];
      }
      assert perTable == before[c.table := current];
      if c !in perTable[c.table] {
        perTable := perTable[c.table := perTable[c.table] + [c]];
      }
      assert perTable == before[c.table := if c in current then current else current + [c]];
      i := i + 1;
    }
    assert cols[..i] == cols;
    GroupedMeaning(cols);
  }

  lemma WithTablesStep(cols: seq<Column>, tables: seq<string>, j: nat, maxColumns: int)
    requires j < |tables|
    ensures WithTables([], cols, tables[..j + 1], maxColumns) ==
      WithWidths(WithTables([], cols, tables[..j], maxColumns), ColumnsOfTable(cols, tables[j]), RangeLength(maxColumns))
  {
    assert tables[..j + 1][..j] == tables[..j];
  }

  /**
   * `_possible_indexes`: group the query's columns by table, then merge in
   * every ordering of 1 .. `max_index_columns` columns of each table.
   */
  method PossibleIndexes(q: Query, maxColumns: int) returns (r: seq<Index>)
    ensures r == PossibleIndexesOf(q, maxColumns)
  {
    var cols := q.columns;
    var tables, perTable := GroupByTable(cols);
    var combos: seq<seq<Column>> := [];
    var j := 0;
    while j < |tables|
      invariant 0 <= j <= |tables|
      invariant combos == WithTables([], cols, tables[..j], maxColumns)
    {
      var tcols := perTable[tables[j]];
      ghost var base := combos;
      var width := 1;
      while width <= maxColumns
        invariant 1 <= width <= RangeLength(maxColumns) + 1
        invariant combos == WithWidths(base, tcols, width - 1)
      {
        combos := Dedup(combos + Permutations(tcols, width));
        width := width + 1;
      }
      assert width - 1 == RangeLength(maxColumns);
      WithTablesStep(cols, tables, j, maxColumns);
      j := j + 1;
    }
    assert tables[..j] == tables;
    r := seq(|combos|, k requires 0 <= k < |combos| => Index(combos[k]));
  }

  // ------------------------------------------------------ recommended indexes

  /** The hypothetical indexes the loop creates: `possible[j]` under oid `start + j`. */
  function Simulated(possible: seq<Index>, start: nat): map<nat, Index> {
    if |possible| == 0 then map[]
    else
      var j := |possible| - 1;
      Simulated(possible[..j], start)[start + j := possible[j]]
  }

  lemma {:induction false} SimulatedKeys(possible: seq<Index>, start: nat)
    ensures forall oid :: oid in Simulated(possible, start) <==> start <= oid < start + |possible|
  {
    if |possible| > 0 {
      SimulatedKeys(possible[..|possible| - 1], start);
    }
  }

  /** The oids `start`, `start + 1`, ... of `n` simulations. */
  function Oids(start: nat, n: nat): (r: seq<nat>)
    ensures |r| == n
  {
    if n == 0 then [] else Oids(start, n - 1) + [start + n - 1]
  }

  /** The size queries `store_size=True` issues for those oids. */
  function SizeStatements(start: nat, n: nat): (r: seq<string>)
    ensures |r| == n
  {
    if n == 0 then [] else SizeStatements(start, n - 1) + [SizeStatement(start + n - 1)]
  }

  /** The possible indexes whose hypopg name occurs in the plan text, in order, each once. */
  function Used(possible: seq<Index>, start: nat, text: string, nameOf: (nat, Index) -> string): seq<Index> {
    if |possible| == 0 then []
    else
      var j := |possible| - 1;
      var rest := Used(possible[..j], start, text, nameOf);
      if Contains(text, nameOf(start + j, possible[j])) && possible[j] !in rest then rest + [possible[j]] else rest
  }

  lemma UsedStep(possible: seq<Index>, start: nat, text: string, nameOf: (nat, Index) -> string, k: nat)
    requires k < |possible|
    ensures Used(possible[..k + 1], start, text, nameOf) ==
      var rest := Used(possible[..k], start, text, nameOf);
      if Contains(text, nameOf(start + k, possible[k])) && possible[k] !in rest then rest + [possible[k]] else rest
  {
    assert possible[..k + 1][..k] == possible[..k];
  }

  /**
   * On repetition-free possible indexes, an index is recommended exactly
   * when the name hypopg gave it occurs in the plan; the recommendations
   * are repetition-free.
   */
  lemma {:induction false} UsedExactly(possible: seq<Index>, start: nat, text: string, nameOf: (nat, Index) -> string)
    requires Distinct(possible)
    ensures Distinct(Used(possible, start, text, nameOf))
    ensures forall ix :: ix in Used(possible, start, text, nameOf) ==> ix in possible
    ensures forall k :: 0 <= k < |possible| ==>
      (possible[k] in Used(possible, start, text, nameOf) <==> Contains(text, nameOf(start + k, possible[k])))
  {
    if |possible| > 0 {
      var j := |possible| - 1;
      var init := possible[..j];
      assert Distinct(init);
      UsedExactly(init, start, text, nameOf);
      forall k | 0 <= k < j ensures possible[k] != possible[j] && possible[k] == init[k] {
      }
    }
  }

  lemma SimulatedStep(before: map<nat, Index>, possible: seq<Index>, start: nat, k: nat)
    requires k < |possible|
    ensures before + Simulated(possible[..k + 1], start) == (before + Simulated(possible[..k], start))[start + k := possible[k]]
  {
    assert possible[..k + 1][..k] == possible[..k];
  }

  /** The hypopg names of the simulations `start`, `start + 1`, ... of the possible indexes. */
  function NamesOf(possible: seq<Index>, start: nat, nameOf: (nat, Index) -> string): (r: seq<string>)
    ensures |r| == |possible|
  {
    seq(|possible|, j requires 0 <= j < |possible| => nameOf(start + j, possible[j]))
  }

  /** The plan text of a query under the given hypothetical indexes. */
  function PlanText(plan: (Query, map<nat, Index>) -> string, q: Query, hypothetical: map<nat, Index>): string {
    plan(q, hypothetical)
  }

  lemma NamesOfStep(possible: seq<Index>, start: nat, nameOf: (nat, Index) -> string, k: nat)
    requires k < |possible|
    ensures NamesOf(possible[..k + 1], start, nameOf) == NamesOf(possible[..k], start, nameOf) + [nameOf(start + k, possible[k])]
  {
  }

  /** A plan's "Total Cost" under the given hypothetical indexes. */
  function TotalCost(cost: (Query, set<Index>) -> real, q: Query, hypothetical: map<nat, Index>): real {
    cost(q, hypothetical.Values)
  }

  lemma AppendAssoc<T>(a: seq<T>, b: seq<T>, x: T)
    ensures a + (b + [x]) == (a + b) + [x]
  {
  }

  /** `simulate_index(index, store_size=True)` on a fresh index object; the name it is stamped with. */
  method SimulateFresh(whatIf: WhatIfIndexCreation, ix: Index) returns (name: string)
    requires whatIf.Valid() && Indexes.Valid(ix)
    modifies whatIf, whatIf.connector
    ensures whatIf.Valid()
    ensures var oid := old(whatIf.connector.nextOid);
      whatIf.connector.nextOid == oid + 1 &&
      whatIf.keys == old(whatIf.keys) + [oid] &&
      whatIf.connector.hypothetical == old(whatIf.connector.hypothetical)[oid := ix] &&
      whatIf.connector.statements == old(whatIf.connector.statements) + [SizeStatement(oid)] &&
      name == whatIf.connector.nameOf(oid, ix)
    ensures whatIf.connector.asked == old(whatIf.connector.asked) && whatIf.connector.planned == old(whatIf.connector.planned)
  {
    var obj := new IndexObject(ix);
    var oid, stamped := whatIf.SimulateIndex(obj, true);
    name := obj.hypopgName.value;
  }

  /**
   * The first loop of `_recommended_indexes`: each index is simulated in
   * turn with its size fetched; `names` holds the hypopg names the index
   * objects are stamped with.
   */
  method SimulateAll(whatIf: WhatIfIndexCreation, possible: seq<Index>) returns (names: seq<string>)
    requires whatIf.Valid()
    requires forall ix :: ix in possible ==> Indexes.Valid(ix)
    modifies whatIf, whatIf.connector
    ensures whatIf.Valid() && |names| == |possible|
    ensures var start := old(whatIf.connector.nextOid);
      whatIf.connector.nextOid == start + |possible| &&
      whatIf.keys == old(whatIf.keys) + Oids(start, |possible|) &&
      whatIf.connector.hypothetical == old(whatIf.connector.hypothetical) + Simulated(possible, start) &&
      whatIf.connector.statements == old(whatIf.connector.statements) + SizeStatements(start, |possible|) &&
      names == NamesOf(possible, start, whatIf.connector.nameOf)
    ensures whatIf.connector.asked == old(whatIf.connector.asked) && whatIf.connector.planned == old(whatIf.connector.planned)
  {
    var connector := whatIf.connector;
    ghost var start := connector.nextOid;
    names := [];
    var k := 0;
    while k < |possible|
      invariant 0 <= k <= |possible| && whatIf.Valid() && |names| == k
      invariant connector.nextOid == start + k
      invariant whatIf.keys == old(whatIf.keys) + Oids(start, k)
      invariant connector.hypothetical == old(connector.hypothetical) + Simulated(possible[..k], start)
      invariant connector.statements == old(connector.statements) + SizeStatements(start, k)
      invariant connector.asked == old(connector.asked) && connector.planned == old(connector.planned)
      invariant names == NamesOf(possible[..k], start, connector.nameOf)
    {
      var name := SimulateFresh(whatIf, possible[k]);
      ghost var oid := start + k;
      SimulatedStep(old(connector.hypothetical), possible, start, k);
      AppendAssoc(old(whatIf.keys), Oids(start, k), oid);
      AppendAssoc(old(connector.statements), SizeStatements(start, k), SizeStatement(oid));
      NamesOfStep(possible, start, connector.nameOf, k);
      names := names + [name];
      k := k + 1;
    }
    assert possible[..k] == possible;
  }

  /**
   * `_recommended_indexes`: every possible index is simulated (with its
   * size fetched), one plan is requested, all simulations are dropped,
   * and the possible indexes whose hypopg name occurs in the plan text are
   * recommended, together with the plan's total cost.
   */
  method RecommendedIndexes(whatIf: WhatIfIndexCreation, q: Query, maxColumns: int)
    returns (recommended: seq<Index>, cost: real)
    requires whatIf.Valid()
    modifies whatIf, whatIf.connector
    ensures whatIf.Valid() && whatIf.keys == []
    ensures var start := old(whatIf.connector.nextOid);
      var possible := PossibleIndexesOf(q, maxColumns);
      var during := old(whatIf.connector.hypothetical) + Simulated(possible, start);
      recommended == Used(possible, start, PlanText(whatIf.connector.plan, q, during), whatIf.connector.nameOf) &&
      cost == TotalCost(whatIf.connector.cost, q, during) &&
      whatIf.connector.nextOid == start + |possible| &&
      whatIf.connector.statements == old(whatIf.connector.statements) + SizeStatements(start, |possible|) +
        DropStatements(old(whatIf.keys) + Oids(start, |possible|)) &&
      whatIf.connector.hypothetical == during - SetOf(old(whatIf.keys) + Oids(start, |possible|))
    ensures whatIf.connector.planned == old(whatIf.connector.planned) + [q]
    ensures whatIf.connector.asked == old(whatIf.connector.asked)
  {
    var connector := whatIf.connector;
    var possible := PossibleIndexes(q, maxColumns);
    ghost var start := connector.nextOid;
    ghost var keys0 := whatIf.keys;
    ghost var statements0 := connector.statements;
    ghost var during := old(connector.hypothetical) + Simulated(possible, start);
    forall ix | ix in possible ensures Indexes.Valid(ix) {
      PossibleIndexesExactly(q, maxColumns, ix);
    }
    assert start == old(whatIf.connector.nextOid) && possible == PossibleIndexesOf(q, maxColumns);
    var names := SimulateAll(whatIf, possible);
    assert whatIf.keys == keys0 + Oids(start, |possible|);
    assert connector.hypothetical == during;
    ghost var statements1 := connector.statements;
    assert statements1 == statements0 + SizeStatements(start, |possible|);
    var text, totalCost := connector.GetPlan(q);
    assert text == PlanText(connector.plan, q, during) && totalCost == TotalCost(connector.cost, q, during);
    cost := totalCost;
    whatIf.DropAllSimulatedIndexes();
    assert connector.statements == statements1 + DropStatements(keys0 + Oids(start, |possible|));
    recommended := FilterUsed(possible, start, text, connector.nameOf, names);
  }

  /** The second loop of `_recommended_indexes`: keep the indexes whose name occurs in the plan text. */
  method FilterUsed(possible: seq<Index>, ghost start: nat, text: string, ghost nameOf: (nat, Index) -> string,
                    names: seq<string>)
    returns (recommended: seq<Index>)
    requires names == NamesOf(possible, start, nameOf)
    ensures recommended == Used(possible, start, text, nameOf)
  {
    recommended := [];
    var k := 0;
    while k < |possible|
      invariant 0 <= k <= |possible|
      invariant recommended == Used(possible[..k], start, text, nameOf)
    {
      UsedStep(possible, start, text, nameOf, k);
      if Contains(text, names[k]) && possible[k] !in recommended {
        recommended := recommended + [possible[k]];
      }
      k := k + 1;
    }
    assert possible[..k] == possible;
  }

  // -------------------------------------------------- exploit virtual indexes

  /** One value of `query_results`: the costs without and with the recommendations, and those. */
  datatype QueryResult = QueryResult(query: Query, costWithout: real, costWith: real, recommended: seq<Index>)

  /** The queries of a list of results, in order. */
  function Queries(rs: seq<QueryResult>): (r: seq<Query>)
    ensures |r| == |rs| && forall k :: 0 <= k < |rs| ==> r[k] == rs[k].query
  {
    seq(|rs|, k requires 0 <= k < |rs| => rs[k].query)
  }

  /** `query_results[query] = ...`: an existing key keeps its place and gets the new value; a new key goes last. */
  function Put(rs: seq<QueryResult>, e: QueryResult): seq<QueryResult> {
    if |rs| == 0 then [e]
    else if rs[0].query == e.query then [e] + rs[1..]
    else [rs[0]] + Put(rs[1..], e)
  }

  /** The assignment keeps the order of the keys and adds a new key last. */
  lemma {:induction false} PutQueries(rs: seq<QueryResult>, e: QueryResult)
    ensures Queries(Put(rs, e)) == if e.query in Queries(rs) then Queries(rs) else Queries(rs) + [e.query]
  {
    if |rs| > 0 {
      var tail := rs[1..];
      assert Queries(rs) == [rs[0].query] + Queries(tail);
      if rs[0].query == e.query {
        assert Queries(Put(rs, e)) == [e.query] + Queries(tail);
      } else {
        PutQueries(tail, e);
        assert Queries(Put(rs, e)) == [rs[0].query] + Queries(Put(tail, e));
      }
    }
  }

  /** Without its first entry, the queries stay distinct and none is the first entry's. */
  lemma QueriesTail(rs: seq<QueryResult>)
    requires |rs| > 0 && Distinct(Queries(rs))
    ensures Distinct(Queries(rs[1..]))
    ensures forall x :: x in rs[1..] ==> x.query != rs[0].query
  {
    var tail := rs[1..];
    forall i, j | 0 <= i < j < |tail| ensures tail[i].query != tail[j].query {
      assert Queries(rs)[i + 1] == tail[i].query && Queries(rs)[j + 1] == tail[j].query;
    }
    forall x | x in tail ensures x.query != rs[0].query {
      var k :| 0 <= k < |tail| && tail[k] == x;
      assert Queries(rs)[k + 1] == x.query;
    }
  }

  /** After the assignment the key holds the new value and every other entry is unchanged. */
  lemma {:induction false} PutEntries(rs: seq<QueryResult>, e: QueryResult)
    requires Distinct(Queries(rs))
    ensures e in Put(rs, e)
    ensures forall x :: x in Put(rs, e) ==> x == e || (x in rs && x.query != e.query)
    ensures forall x :: x in rs && x.query != e.query ==> x in Put(rs, e)
  {
    if |rs| > 0 {
      var tail := rs[1..];
      assert rs == [rs[0]] + tail;
      QueriesTail(rs);
      if rs[0].query == e.query {
        assert Put(rs, e) == [e] + tail;
      } else {
        assert Put(rs, e) == [rs[0]] + Put(tail, e);
        PutEntries(tail, e);
      }
    }
  }

  /** The connector and what-if state `_recommended_indexes` reads and changes. */
  datatype Probing = Probing(hypothetical: map<nat, Index>, keys: seq<nat>, nextOid: nat, statements: seq<string>)

  /** The oracle functions of the connector. */
  datatype Oracle = Oracle(cost: (Query, set<Index>) -> real, plan: (Query, map<nat, Index>) -> string,
                           nameOf: (nat, Index) -> string)

  /**
   * One turn of `_exploit_virtual_indexes`: the plan's cost without new
   * indexes, then `_recommended_indexes` with its simulations, plan and
   * drops.
   */
  function ProbeResult(o: Oracle, st: Probing, q: Query, maxColumns: int): QueryResult {
    var possible := PossibleIndexesOf(q, maxColumns);
    var during := st.hypothetical + Simulated(possible, st.nextOid);
    QueryResult(q, TotalCost(o.cost, q, st.hypothetical), TotalCost(o.cost, q, during),
                Used(possible, st.nextOid, PlanText(o.plan, q, during), o.nameOf))
  }

  function ProbeState(st: Probing, q: Query, maxColumns: int): Probing {
    var possible := PossibleIndexesOf(q, maxColumns);
    var n := |possible|;
    var during := st.hypothetical + Simulated(possible, st.nextOid);
    Probing(during - SetOf(st.keys + Oids(st.nextOid, n)), [], st.nextOid + n,
            st.statements + SizeStatements(st.nextOid, n) + DropStatements(st.keys + Oids(st.nextOid, n)))
  }

  /** The results of the turns for `queries`, one per query, starting in `st`. */
  function Trace(o: Oracle, st: Probing, queries: seq<Query>, maxColumns: int): seq<QueryResult>
    decreases |queries|
  {
    if |queries| == 0 then []
    else [ProbeResult(o, st, queries[0], maxColumns)] + Trace(o, ProbeState(st, queries[0], maxColumns), queries[1..], maxColumns)
  }

  /** The state after the turns for `queries`. */
  function Final(st: Probing, queries: seq<Query>, maxColumns: int): Probing
    decreases |queries|
  {
    if |queries| == 0 then st else Final(ProbeState(st, queries[0], maxColumns), queries[1..], maxColumns)
  }

  /** `query_results` after assigning each result in turn. */
  function Dict(trace: seq<QueryResult>): seq<QueryResult> {
    if |trace| == 0 then [] else Put(Dict(trace[..|trace| - 1]), trace[|trace| - 1])
  }

  /** `index_candidates` after `|=` with each recommendation in turn. */
  function Union(trace: seq<QueryResult>): seq<Index> {
    if |trace| == 0 then [] else Dedup(Union(trace[..|trace| - 1]) + trace[|trace| - 1].recommended)
  }

  /** Each query twice: its own plan, then the plan with the simulated indexes. */
  function Twice(queries: seq<Query>): (r: seq<Query>)
    ensures |r| == 2 * |queries|
  {
    if |queries| == 0 then [] else Twice(queries[..|queries| - 1]) + [queries[|queries| - 1], queries[|queries| - 1]]
  }

  function StateOf(whatIf: WhatIfIndexCreation): Probing
    reads whatIf, whatIf.connector
  {
    Probing(whatIf.connector.hypothetical, whatIf.keys, whatIf.connector.nextOid, whatIf.connector.statements)
  }

  function OracleOf(c: Connector): Oracle {
    Oracle(c.cost, c.plan, c.nameOf)
  }

  lemma TraceStep(o: Oracle, st: Probing, queries: seq<Query>, i: nat, maxColumns: int)
    requires i < |queries|
    ensures Trace(o, st, queries[i..], maxColumns) ==
      [ProbeResult(o, st, queries[i], maxColumns)] + Trace(o, ProbeState(st, queries[i], maxColumns), queries[i + 1..], maxColumns)
    ensures Final(st, queries[i..], maxColumns) == Final(ProbeState(st, queries[i], maxColumns), queries[i + 1..], maxColumns)
  {
    assert queries[i..][1..] == queries[i + 1..];
  }

  /** The loop invariant of `_exploit_virtual_indexes` carried over one turn. */
  lemma TraceAdvance(o: Oracle, st0: Probing, queries: seq<Query>, i: nat, maxColumns: int,
                     done: seq<QueryResult>, before: Probing, e: QueryResult, after: Probing)
    requires i < |queries|
    requires Trace(o, st0, queries, maxColumns) == done + Trace(o, before, queries[i..], maxColumns)
    requires Final(st0, queries, maxColumns) == Final(before, queries[i..], maxColumns)
    requires e == ProbeResult(o, before, queries[i], maxColumns) && after == ProbeState(before, queries[i], maxColumns)
    ensures Trace(o, st0, queries, maxColumns) == (done + [e]) + Trace(o, after, queries[i + 1..], maxColumns)
    ensures Final(st0, queries, maxColumns) == Final(after, queries[i + 1..], maxColumns)
  {
    TraceStep(o, before, queries, i, maxColumns);
  }

  lemma TraceEnd(o: Oracle, st0: Probing, queries: seq<Query>, maxColumns: int, done: seq<QueryResult>, st: Probing)
    requires Trace(o, st0, queries, maxColumns) == done + Trace(o, st, queries[|queries|..], maxColumns)
    requires Final(st0, queries, maxColumns) == Final(st, queries[|queries|..], maxColumns)
    ensures Trace(o, st0, queries, maxColumns) == done && Final(st0, queries, maxColumns) == st
  {
    assert queries[|queries|..] == [];
  }

  lemma PrefixStep(trace: seq<QueryResult>, e: QueryResult)
    ensures Dict(trace + [e]) == Put(Dict(trace), e)
    ensures Union(trace + [e]) == Dedup(Union(trace) + e.recommended)
  {
    assert (trace + [e])[..|trace|] == trace;
  }

  /** One turn of the loop as a method: the plan without new indexes, then the recommendation. */
  method ProbeQuery(whatIf: WhatIfIndexCreation, q: Query, maxColumns: int) returns (e: QueryResult)
    requires whatIf.Valid()
    modifies whatIf, whatIf.connector
    ensures whatIf.Valid()
    ensures e == ProbeResult(OracleOf(whatIf.connector), old(StateOf(whatIf)), q, maxColumns)
    ensures StateOf(whatIf) == ProbeState(old(StateOf(whatIf)), q, maxColumns)
    ensures whatIf.connector.planned == old(whatIf.connector.planned) + [q, q]
    ensures whatIf.connector.asked == old(whatIf.connector.asked)
  {
    var connector := whatIf.connector;
    var text, costWithout := connector.GetPlan(q);
    assert costWithout == TotalCost(connector.cost, q, connector.hypothetical);
    var recommended, costWith := RecommendedIndexes(whatIf, q, maxColumns);
    e := QueryResult(q, costWithout, costWith, recommended);
  }

  method ExploitVirtualIndexes(whatIf: WhatIfIndexCreation, w: Workload, maxColumns: int)
    returns (results: seq<QueryResult>, candidates: seq<Index>)
    requires whatIf.Valid()
    modifies whatIf, whatIf.connector
    ensures whatIf.Valid()
    ensures var trace := Trace(OracleOf(whatIf.connector), old(StateOf(whatIf)), w.queries, maxColumns);
      results == Dict(trace) && candidates == Union(trace)
    ensures StateOf(whatIf) == Final(old(StateOf(whatIf)), w.queries, maxColumns)
    ensures whatIf.connector.planned == old(whatIf.connector.planned) + Twice(w.queries)
    ensures whatIf.connector.asked == old(whatIf.connector.asked)
  {
    var connector := whatIf.connector;
    ghost var o := OracleOf(connector);
    ghost var st0 := StateOf(whatIf);
    ghost var done: seq<QueryResult> := [];
    ghost var st := st0;
    ghost var planned0 := connector.planned;
    results := [];
    candidates := [];
    var i := 0;
    while i < |w.queries|
      invariant 0 <= i <= |w.queries| && whatIf.Valid()
      invariant StateOf(whatIf) == st
      invariant Trace(o, st0, w.queries, maxColumns) == done + Trace(o, st, w.queries[i..], maxColumns)
      invariant Final(st0, w.queries, maxColumns) == Final(st, w.queries[i..], maxColumns)
      invariant results == Dict(done) && candidates == Union(done)
      invariant connector.planned == planned0 + Twice(w.queries[..i])
      invariant connector.asked == old(connector.asked)
    {
      var q := w.queries[i];
      ghost var p := connector.planned;
      var e := ProbeQuery(whatIf, q, maxColumns);
      TwiceAdvance(planned0, w.queries, i, p);
      TraceAdvance(o, st0, w.queries, i, maxColumns, done, st, e, ProbeState(st, q, maxColumns));
      st := ProbeState(st, q, maxColumns);
      PrefixStep(done, e);
      done := done + [e];
      results := Put(results, e);
      candidates := Dedup(candidates + e.recommended);
      i := i + 1;
    }
    assert w.queries[..i] == w.queries;
    TraceEnd(o, st0, w.queries, maxColumns, done, st);
  }

  /** The plan log gains the turn's query twice. */
  lemma TwiceAdvance(planned0: seq<Query>, queries: seq<Query>, i: nat, p: seq<Query>)
    requires i < |queries| && p == planned0 + Twice(queries[..i])
    ensures p + [queries[i], queries[i]] == planned0 + Twice(queries[..i + 1])
  {
    assert queries[..i + 1][..i] == queries[..i];
  }

  // ------------------------------------------------------------ what the turns find

  /** The result of each turn is filed under its own query, in workload order. */
  lemma {:induction false} TraceQueries(o: Oracle, st: Probing, queries: seq<Query>, maxColumns: int)
    ensures Queries(Trace(o, st, queries, maxColumns)) == queries
    decreases |queries|
  {
    if |queries| > 0 {
      var rest := Trace(o, ProbeState(st, queries[0], maxColumns), queries[1..], maxColumns);
      TraceQueries(o, ProbeState(st, queries[0], maxColumns), queries[1..], maxColumns);
      var t := Trace(o, st, queries, maxColumns);
      assert t == [ProbeResult(o, st, queries[0], maxColumns)] + rest;
      forall k | 0 <= k < |queries| ensures Queries(t)[k] == queries[k] {
        if k > 0 {
          assert t[k] == rest[k - 1];
          assert Queries(rest)[k - 1] == queries[1..][k - 1];
        }
      }
    }
  }

  /**
   * A turn recommends, once each, exactly those possible indexes of its query
   * whose hypopg name occurs in the plan made while all of them were
   * simulated; each is an ordering of up to `maxColumns` columns of one table
   * that the query references.
   */
  lemma ProbeRecommendations(o: Oracle, st: Probing, q: Query, maxColumns: int)
    ensures var e := ProbeResult(o, st, q, maxColumns);
      e.query == q && Distinct(e.recommended) &&
      forall ix :: ix in e.recommended ==> IsCombination(q.columns, maxColumns, ix.columns)
    ensures var possible := PossibleIndexesOf(q, maxColumns);
      var text := PlanText(o.plan, q, st.hypothetical + Simulated(possible, st.nextOid));
      forall k :: 0 <= k < |possible| ==>
        (possible[k] in ProbeResult(o, st, q, maxColumns).recommended <==> Contains(text, o.nameOf(st.nextOid + k, possible[k])))
  {
    var possible := PossibleIndexesOf(q, maxColumns);
    var text := PlanText(o.plan, q, st.hypothetical + Simulated(possible, st.nextOid));
    PossibleIndexesDistinct(q, maxColumns);
    UsedExactly(possible, st.nextOid, text, o.nameOf);
    forall ix | ix in Used(possible, st.nextOid, text, o.nameOf)
      ensures IsCombination(q.columns, maxColumns, ix.columns)
    {
      PossibleIndexesExactly(q, maxColumns, ix);
    }
  }

  /** Every turn's recommendations are possible indexes of its query, without repetitions. */
  lemma {:induction false} TraceRecommendations(o: Oracle, st: Probing, queries: seq<Query>, maxColumns: int)
    ensures forall e :: e in Trace(o, st, queries, maxColumns) ==>
      Distinct(e.recommended) && forall ix :: ix in e.recommended ==> IsCombination(e.query.columns, maxColumns, ix.columns)
    decreases |queries|
  {
    if |queries| > 0 {
      ProbeRecommendations(o, st, queries[0], maxColumns);
      TraceRecommendations(o, ProbeState(st, queries[0], maxColumns), queries[1..], maxColumns);
    }
  }

  /** Assigning a new key appends its entry. */
  lemma {:induction false} PutNew(rs: seq<QueryResult>, e: QueryResult)
    requires e.query !in Queries(rs)
    ensures Put(rs, e) == rs + [e]
  {
    if |rs| > 0 {
      assert Queries(rs)[0] == rs[0].query;
      assert e.query !in Queries(rs[1..]) by {
        forall k | 0 <= k < |rs| - 1 ensures Queries(rs[1..])[k] != e.query {
          assert Queries(rs[1..])[k] == Queries(rs)[k + 1];
        }
      }
      PutNew(rs[1..], e);
      assert rs == [rs[0]] + rs[1..];
    }
  }

  /** The keys of `query_results` are the queries, each once, in first-seen order. */
  lemma {:induction false} DictQueries(trace: seq<QueryResult>)
    ensures Queries(Dict(trace)) == Dedup(Queries(trace))
  {
    if |trace| > 0 {
      var init := trace[..|trace| - 1];
      var e := trace[|trace| - 1];
      var d := Dict(init);
      assert Dict(trace) == Put(d, e);
      DictQueries(init);
      PutQueries(d, e);
      assert Queries(trace) == Queries(init) + [e.query];
      DedupStep(Queries(d), Queries(init), e.query, Queries(Put(d, e)), Queries(trace));
    }
  }

  /** Deduplication after one more element, over plain sequences. */
  lemma DedupStep<T(!new)>(deduped: seq<T>, s: seq<T>, x: T, next: seq<T>, t: seq<T>)
    requires deduped == Dedup(s) && t == s + [x]
    requires next == if x in deduped then deduped else deduped + [x]
    ensures next == Dedup(t)
  {
    DedupAppend(s, x);
  }

  /** When no query repeats, `query_results` holds every turn's result in turn order. */
  lemma {:induction false} DictOfDistinct(trace: seq<QueryResult>)
    requires Distinct(Queries(trace))
    ensures Dict(trace) == trace
  {
    if |trace| > 0 {
      var init := trace[..|trace| - 1];
      var e := trace[|trace| - 1];
      assert Distinct(Queries(init)) by {
        forall i, j | 0 <= i < j < |init| ensures Queries(init)[i] != Queries(init)[j] {
          assert Queries(init)[i] == Queries(trace)[i] && Queries(init)[j] == Queries(trace)[j];
        }
      }
      DictOfDistinct(init);
      assert e.query !in Queries(init) by {
        forall k | 0 <= k < |init| ensures Queries(init)[k] != e.query {
          assert Queries(init)[k] == Queries(trace)[k] && Queries(trace)[|trace| - 1] == e.query;
        }
      }
      PutNew(init, e);
      assert trace == init + [e];
    }
  }

  /** `trace[k]` is the last turn for its query. */
  predicate LastFor(trace: seq<QueryResult>, k: nat)
    requires k < |trace|
  {
    forall j :: k < j < |trace| ==> trace[j].query != trace[k].query
  }

  /**
   * A repeated query keeps the result of its last turn: every stored entry is
   * some turn's result, and the last turn for each query is stored.
   */
  lemma DictLatest(trace: seq<QueryResult>)
    ensures forall x :: x in Dict(trace) ==> x in trace
    ensures forall k :: 0 <= k < |trace| && LastFor(trace, k) ==> trace[k] in Dict(trace)
  {
    DictFromTrace(trace);
    DictKeepsLast(trace);
  }

  /** Every stored entry is some turn's result. */
  lemma {:induction false} DictFromTrace(trace: seq<QueryResult>)
    ensures forall x :: x in Dict(trace) ==> x in trace
  {
    if |trace| > 0 {
      var n := |trace| - 1;
      var init, e := trace[..n], trace[n];
      var d := Dict(init);
      assert Dict(trace) == Put(d, e);
      DictFromTrace(init);
      DictDistinct(init);
      PutEntries(d, e);
      forall x | x in Dict(trace) ensures x in trace {
        if x != e {
          var k :| 0 <= k < |init| && init[k] == x;
          assert trace[k] == x;
        }
      }
    }
  }

  /** No query is stored twice. */
  lemma DictDistinct(trace: seq<QueryResult>)
    ensures Distinct(Queries(Dict(trace)))
  {
    DictQueries(trace);
  }

  /** The last turn for each query is stored. */
  lemma {:induction false} DictKeepsLast(trace: seq<QueryResult>)
    ensures forall k :: 0 <= k < |trace| && LastFor(trace, k) ==> trace[k] in Dict(trace)
  {
    if |trace| > 0 {
      var n := |trace| - 1;
      var init, e := trace[..n], trace[n];
      var d := Dict(init);
      assert Dict(trace) == Put(d, e);
      DictKeepsLast(init);
      DictDistinct(init);
      PutEntries(d, e);
      assert trace == init + [e];
      KeptAll(init, e, d, Put(d, e));
    }
  }

  /** The step of the above: each turn that is the last for its query is kept. */
  lemma KeptAll(init: seq<QueryResult>, e: QueryResult, d: seq<QueryResult>, d': seq<QueryResult>)
    requires forall j :: 0 <= j < |init| && LastFor(init, j) ==> init[j] in d
    requires e in d'
    requires forall x :: x in d && x.query != e.query ==> x in d'
    ensures forall k :: 0 <= k < |init + [e]| && LastFor(init + [e], k) ==> (init + [e])[k] in d'
  {
    forall k | 0 <= k < |init + [e]| && LastFor(init + [e], k) ensures (init + [e])[k] in d' {
      KeptAt(init, e, d, d', k);
    }
  }

  /** One turn `k` that is the last for its query. */
  lemma KeptAt(init: seq<QueryResult>, e: QueryResult, d: seq<QueryResult>, d': seq<QueryResult>, k: nat)
    requires k <= |init| && LastFor(init + [e], k)
    requires forall j :: 0 <= j < |init| && LastFor(init, j) ==> init[j] in d
    requires e in d'
    requires forall x :: x in d && x.query != e.query ==> x in d'
    ensures (init + [e])[k] in d'
  {
    var trace := init + [e];
    if k < |init| {
      assert init[k] == trace[k];
      assert LastFor(init, k) by {
        forall j | k < j < |init| ensures init[j].query != init[k].query {
          assert init[j] == trace[j];
        }
      }
      assert trace[k] in d;
      assert trace[k].query != trace[|init|].query;
    }
  }

  /** `ix` is recommended by some turn. */
  ghost predicate RecommendedBy(trace: seq<QueryResult>, ix: Index) {
    exists e :: e in trace && ix in e.recommended
  }

  /** The candidates are each recommended index once and nothing else. */
  lemma {:induction false} UnionMembers(trace: seq<QueryResult>)
    ensures Distinct(Union(trace))
    ensures forall ix :: ix in Union(trace) <==> RecommendedBy(trace, ix)
  {
    if |trace| > 0 {
      var init := trace[..|trace| - 1];
      var e := trace[|trace| - 1];
      UnionMembers(init);
      assert trace == init + [e];
      forall ix ensures ix in Union(trace) <==> RecommendedBy(trace, ix) {
        if RecommendedBy(trace, ix) {
          var f :| f in trace && ix in f.recommended;
          if f != e {
            assert f in init;
          }
        }
      }
    }
  }
}
