/**
 * statsitics_tools/analysis.py: tables over the runs of a benchmark,
 * grouped by budget. Which runs reached which overall cost, which runs
 * selected the same configuration, which runs selected an index, what
 * each run's queries cost, and the comparison of a baseline run with
 * other algorithms' runs at one budget.
 *
 * A run is the part of `BenchmarkDataclass` these tables read; a cost
 * cell `{"Cost": c}` is given as `c`.
 */
module Analysis {
  import opened Common

  /** A benchmark run, as far as the analysis reads it. */
  datatype Run = Run(
    sequence: string,
    budgetInBytes: int,
    overallCosts: real,
    selectedIndexes: seq<string>,
    algorithmIndexesByQuery: map<string, seq<string>>,
    costsByQuery: map<string, real>)

  // ------------------------------------------------------------ grouping by budget

  /** For each budget, lists of run names under keys of the runs. */
  type Groups<K> = map<int, map<K, seq<string>>>

  /** Appends `s` to the list under each of `keys` in turn, starting a list where there is none. */
  function AppendUnder<K>(inner: map<K, seq<string>>, keys: seq<K>, s: string): map<K, seq<string>> {
    if |keys| == 0 then inner
    else
      var m := AppendUnder(inner, keys[..|keys| - 1], s);
      var k := keys[|keys| - 1];
      m[k := (if k in m then m[k] else []) + [s]]
  }

  /** The table after the runs of `data` in order, each under its budget and its keys. */
  function GroupedBy<K>(data: seq<Run>, keysOf: Run -> seq<K>): Groups<K> {
    if |data| == 0 then map[]
    else
      var g := GroupedBy(data[..|data| - 1], keysOf);
      var run := data[|data| - 1];
      var inner := if run.budgetInBytes in g then g[run.budgetInBytes] else map[];
      g[run.budgetInBytes := AppendUnder(inner, keysOf(run), run.sequence)]
  }

  /** The loop shared by the three grouping tables. */
  method GroupByBudget<K>(data: seq<Run>, keysOf: Run -> seq<K>) returns (budgets: Groups<K>)
    ensures budgets == GroupedBy(data, keysOf)
  {
    budgets := map[];
    for i := 0 to |data|
      invariant budgets == GroupedBy(data[..i], keysOf)
    {
      var item := data[i];
      assert data[..i + 1][..i] == data[..i];
      ghost var before := budgets;
      if item.budgetInBytes !in budgets {
        budgets := budgets[item.budgetInBytes := map[]];
      }
      var inner := budgets[item.budgetInBytes];
      var keys := keysOf(item);
      for j := 0 to |keys|
        invariant inner == AppendUnder(if item.budgetInBytes in before then before[item.budgetInBytes] else map[], keys[..j], item.sequence)
      {
        assert keys[..j + 1][..j] == keys[..j];
        var k := keys[j];
        if k !in inner {
          inner := inner[k := []];
        }
        inner := inner[k := inner[k] + [item.sequence]];
      }
      assert keys[..|keys|] == keys;
      budgets := budgets[item.budgetInBytes := inner];
    }
    assert data[..|data|] == data;
  }

  /** `s` once for each occurrence of `k` among `keys`. */
  function Occurrences<K(==)>(keys: seq<K>, k: K, s: string): seq<string> {
    if |keys| == 0 then []
    else Occurrences(keys[..|keys| - 1], k, s) + (if keys[|keys| - 1] == k then [s] else [])
  }

  /**
   * The names of the runs of budget `b`, in input order, each as often as
   * the run has `k` among its keys.
   */
  function Members<K(==)>(data: seq<Run>, b: int, k: K, keysOf: Run -> seq<K>): seq<string> {
    if |data| == 0 then []
    else
      var run := data[|data| - 1];
      Members(data[..|data| - 1], b, k, keysOf) + (if run.budgetInBytes == b then Occurrences(keysOf(run), k, run.sequence) else [])
  }

  lemma {:induction false} AppendUnderMeaning<K>(inner: map<K, seq<string>>, keys: seq<K>, s: string)
    ensures forall k :: k in AppendUnder(inner, keys, s) <==> k in inner || k in keys
    ensures forall k :: k in AppendUnder(inner, keys, s) ==>
      AppendUnder(inner, keys, s)[k] == (if k in inner then inner[k] else []) + Occurrences(keys, k, s)
  {
    if |keys| > 0 {
      var front := keys[..|keys| - 1];
      AppendUnderMeaning(inner, front, s);
      assert keys == front + [keys[|keys| - 1]];
      forall k | k in AppendUnder(inner, keys, s)
        ensures AppendUnder(inner, keys, s)[k] == (if k in inner then inner[k] else []) + Occurrences(keys, k, s)
      {
        if k !in AppendUnder(inner, front, s) {
          assert k !in inner && k !in front;
          assert Occurrences(front, k, s) == [] by { OccurrencesAbsent(front, k, s); }
        }
      }
    } else {
      forall k | k in inner ensures AppendUnder(inner, keys, s)[k] == inner[k] + Occurrences(keys, k, s) {
        assert inner[k] + [] == inner[k];
      }
    }
  }

  /** A key the appended keys do not hold was there before. */
  lemma AppendUnderFrom<K>(inner: map<K, seq<string>>, keys: seq<K>, s: string, k: K)
    requires k in AppendUnder(inner, keys, s) && k !in keys
    ensures k in inner
  {
    AppendUnderMeaning(inner, keys, s);
  }

  lemma {:induction false} OccurrencesAbsent<K>(keys: seq<K>, k: K, s: string)
    requires k !in keys
    ensures Occurrences(keys, k, s) == []
  {
    if |keys| > 0 {
      assert keys[..|keys| - 1] <= keys;
      OccurrencesAbsent(keys[..|keys| - 1], k, s);
    }
  }

  /**
   * The grouping table holds a budget exactly when some run has it, and a
   * key under it exactly when some run of that budget has that key.
   */
  lemma GroupedByKeys<K>(data: seq<Run>, keysOf: Run -> seq<K>)
    ensures forall b :: b in GroupedBy(data, keysOf) <==> exists i :: 0 <= i < |data| && data[i].budgetInBytes == b
    ensures forall b, k :: b in GroupedBy(data, keysOf) && k in GroupedBy(data, keysOf)[b] ==>
      exists i :: 0 <= i < |data| && data[i].budgetInBytes == b && k in keysOf(data[i])
    ensures forall i, k :: 0 <= i < |data| && k in keysOf(data[i]) ==>
      data[i].budgetInBytes in GroupedBy(data, keysOf) && k in GroupedBy(data, keysOf)[data[i].budgetInBytes]
  {
    GroupedBudgets(data, keysOf);
    GroupedKeysFrom(data, keysOf);
    GroupedKeysOf(data, keysOf);
  }

  /** The grouping table holds a budget exactly when some run has it. */
  lemma {:induction false} GroupedBudgets<K>(data: seq<Run>, keysOf: Run -> seq<K>)
    ensures forall b :: b in GroupedBy(data, keysOf) <==> exists i :: 0 <= i < |data| && data[i].budgetInBytes == b
  {
    if |data| > 0 {
      var front := data[..|data| - 1];
      var run := data[|data| - 1];
      GroupedBudgets(front, keysOf);
      var g := GroupedBy(front, keysOf);
      var inner := if run.budgetInBytes in g then g[run.budgetInBytes] else map[];
      AppendUnderMeaning(inner, keysOf(run), run.sequence);
      var whole := GroupedBy(data, keysOf);
      assert whole == g[run.budgetInBytes := AppendUnder(inner, keysOf(run), run.sequence)];
      forall b ensures b in whole <==> exists i :: 0 <= i < |data| && data[i].budgetInBytes == b {
        if b in g {
          var i :| 0 <= i < |front| && front[i].budgetInBytes == b;
          assert data[i] == front[i];
        }
        if exists i :: 0 <= i < |data| && data[i].budgetInBytes == b {
          var i :| 0 <= i < |data| && data[i].budgetInBytes == b;
          if i < |front| {
            assert front[i] == data[i];
          }
        }
      }
    }
  }

  /** A key under a budget comes from some run of that budget. */
  lemma {:induction false} GroupedKeysFrom<K>(data: seq<Run>, keysOf: Run -> seq<K>)
    ensures forall b, k :: b in GroupedBy(data, keysOf) && k in GroupedBy(data, keysOf)[b] ==>
      exists i :: 0 <= i < |data| && data[i].budgetInBytes == b && k in keysOf(data[i])
  {
    if |data| > 0 {
      var front := data[..|data| - 1];
      var run := data[|data| - 1];
      GroupedKeysFrom(front, keysOf);
      var g := GroupedBy(front, keysOf);
      var inner := if run.budgetInBytes in g then g[run.budgetInBytes] else map[];
      AppendUnderMeaning(inner, keysOf(run), run.sequence);
      var whole := GroupedBy(data, keysOf);
      assert whole == g[run.budgetInBytes := AppendUnder(inner, keysOf(run), run.sequence)];
      forall b, k | b in whole && k in whole[b]
        ensures exists i :: 0 <= i < |data| && data[i].budgetInBytes == b && k in keysOf(data[i])
      {
        var keys := keysOf(run);
        if b == run.budgetInBytes && k in keys {
          assert data[|front|] == run;
        } else {
          if b == run.budgetInBytes {
            AppendUnderFrom(inner, keys, run.sequence, k);
          } else {
            assert whole[b] == g[b];
          }
          assert b in g && k in g[b];
          var i :| 0 <= i < |front| && front[i].budgetInBytes == b && k in keysOf(front[i]);
          assert data[i] == front[i];
        }
      }
    }
  }

  /** Every key of every run is under its budget. */
  lemma {:induction false} GroupedKeysOf<K>(data: seq<Run>, keysOf: Run -> seq<K>)
    ensures forall i, k :: 0 <= i < |data| && k in keysOf(data[i]) ==>
      data[i].budgetInBytes in GroupedBy(data, keysOf) && k in GroupedBy(data, keysOf)[data[i].budgetInBytes]
  {
    if |data| > 0 {
      var front := data[..|data| - 1];
      var run := data[|data| - 1];
      GroupedKeysOf(front, keysOf);
      var g := GroupedBy(front, keysOf);
      var inner := if run.budgetInBytes in g then g[run.budgetInBytes] else map[];
      AppendUnderMeaning(inner, keysOf(run), run.sequence);
      var whole := GroupedBy(data, keysOf);
      assert whole == g[run.budgetInBytes := AppendUnder(inner, keysOf(run), run.sequence)];
      forall i, k | 0 <= i < |data| && k in keysOf(data[i])
        ensures data[i].budgetInBytes in whole && k in whole[data[i].budgetInBytes]
      {
        var b := data[i].budgetInBytes;
        if i < |front| {
          assert front[i] == data[i];
          assert b in g && k in g[b];
          if b == run.budgetInBytes {
            assert inner == g[b];
            assert k in AppendUnder(inner, keysOf(run), run.sequence);
          } else {
            assert whole[b] == g[b];
          }
        } else {
          assert data[i] == run;
        }
      }
    }
  }

  /** Under each budget and key, the run names in input order, once per occurrence of the key. */
  lemma {:induction false} GroupedByLists<K>(data: seq<Run>, keysOf: Run -> seq<K>)
    ensures forall b, k :: b in GroupedBy(data, keysOf) && k in GroupedBy(data, keysOf)[b] ==>
      GroupedBy(data, keysOf)[b][k] == Members(data, b, k, keysOf)
  {
    if |data| > 0 {
      var front := data[..|data| - 1];
      var run := data[|data| - 1];
      GroupedByLists(front, keysOf);
      var g := GroupedBy(front, keysOf);
      var inner := if run.budgetInBytes in g then g[run.budgetInBytes] else map[];
      AppendUnderMeaning(inner, keysOf(run), run.sequence);
      forall b, k | b in GroupedBy(data, keysOf) && k in GroupedBy(data, keysOf)[b]
        ensures GroupedBy(data, keysOf)[b][k] == Members(data, b, k, keysOf)
      {
        if b == run.budgetInBytes {
          if k !in inner {
            GroupedByKeys(front, keysOf);
            forall i | 0 <= i < |front| && front[i].budgetInBytes == b ensures k !in keysOf(front[i]) {
            }
            MembersAbsent(front, b, k, keysOf);
          }
        } else {
          assert GroupedBy(data, keysOf)[b] == g[b];
          assert Members(data, b, k, keysOf) == Members(front, b, k, keysOf) + [];
        }
      }
    }
  }

  lemma {:induction false} MembersAbsent<K>(data: seq<Run>, b: int, k: K, keysOf: Run -> seq<K>)
    requires forall i :: 0 <= i < |data| && data[i].budgetInBytes == b ==> k !in keysOf(data[i])
    ensures Members(data, b, k, keysOf) == []
  {
    if |data| > 0 {
      var run := data[|data| - 1];
      MembersAbsent(data[..|data| - 1], b, k, keysOf);
      if run.budgetInBytes == b {
        OccurrencesAbsent(keysOf(run), k, run.sequence);
      }
    }
  }

  /** Where a name is listed under a budget and a key: a run of that budget with that name lists the key. */
  lemma {:induction false} MembersMeaning<K>(data: seq<Run>, b: int, k: K, keysOf: Run -> seq<K>)
    ensures forall x :: x in Members(data, b, k, keysOf) <==>
      exists i :: 0 <= i < |data| && data[i].budgetInBytes == b && k in keysOf(data[i]) && data[i].sequence == x
  {
    if |data| > 0 {
      var front := data[..|data| - 1];
      var run := data[|data| - 1];
      MembersMeaning(front, b, k, keysOf);
      OccurrencesMeaning(keysOf(run), k, run.sequence);
      forall x ensures x in Members(data, b, k, keysOf) <==>
        exists i :: 0 <= i < |data| && data[i].budgetInBytes == b && k in keysOf(data[i]) && data[i].sequence == x
      {
        if exists i :: 0 <= i < |data| && data[i].budgetInBytes == b && k in keysOf(data[i]) && data[i].sequence == x {
          var i :| 0 <= i < |data| && data[i].budgetInBytes == b && k in keysOf(data[i]) && data[i].sequence == x;
          if i < |front| {
            assert front[i] == data[i];
          }
        }
        if x in Members(front, b, k, keysOf) {
          var i :| 0 <= i < |front| && front[i].budgetInBytes == b && k in keysOf(front[i]) && front[i].sequence == x;
          assert data[i] == front[i];
        }
      }
    }
  }

  lemma {:induction false} OccurrencesMeaning<K>(keys: seq<K>, k: K, s: string)
    ensures s in Occurrences(keys, k, s) <==> k in keys
    ensures forall x :: x in Occurrences(keys, k, s) ==> x == s
  {
    if |keys| > 0 {
      var front := keys[..|keys| - 1];
      OccurrencesMeaning(front, k, s);
      assert keys == front + [keys[|keys| - 1]];
    }
  }

  // ------------------------------------------------------------ the three grouping tables

  /** The key of `overall_costs_breakdown`: the run's overall cost. */
  function CostKeys(run: Run): seq<real> {
    [run.overallCosts]
  }

  /** `overall_costs_breakdown`. */
  method OverallCostsBreakdown(data: seq<Run>) returns (budgets: Groups<real>)
    ensures budgets == GroupedBy(data, CostKeys)
  {
    budgets := GroupByBudget(data, CostKeys);
  }

  /**
   * Under a budget, each overall cost any run of that budget reached, and
   * under it the names of exactly the runs of that budget with that cost,
   * in input order.
   */
  lemma OverallCostsBreakdownMeaning(data: seq<Run>, budgets: Groups<real>)
    requires budgets == GroupedBy(data, CostKeys)
    ensures forall i :: 0 <= i < |data| ==>
      data[i].budgetInBytes in budgets && data[i].overallCosts in budgets[data[i].budgetInBytes]
    ensures forall b, c, x :: b in budgets && c in budgets[b] ==>
      (x in budgets[b][c] <==>
        exists i :: 0 <= i < |data| && data[i].budgetInBytes == b && data[i].overallCosts == c && data[i].sequence == x)
    ensures forall b, c :: b in budgets && c in budgets[b] ==> budgets[b][c] == Members(data, b, c, CostKeys)
  {
    forall i | 0 <= i < |data| ensures data[i].budgetInBytes in budgets && data[i].overallCosts in budgets[data[i].budgetInBytes] {
      GroupedByKeys(data, CostKeys);
      assert data[i].overallCosts in CostKeys(data[i]);
    }
    SingleKeyMembers(data, budgets, CostKeys, (r: Run) => r.overallCosts);
    GroupedByLists(data, CostKeys);
  }

  /** Python's `str` of a list of strings (no name holding a quote or a backslash). */
  function StrListRepr(xs: seq<string>): string {
    "[" + Join(", ", Quoted(xs)) + "]"
  }

  /** Each string in single quotes. */
  function Quoted(xs: seq<string>): seq<string> {
    if |xs| == 0 then [] else ["'" + xs[0] + "'"] + Quoted(xs[1..])
  }

  /** `str(sorted(item.selected_indexes))`. */
  function ConfigName(indexes: seq<string>): string {
    StrListRepr(Sort(indexes, StrLe))
  }

  /** The key of `equal_index_configs_by_budget`: the run's sorted configuration. */
  function ConfigKeys(run: Run): seq<string> {
    [ConfigName(run.selectedIndexes)]
  }

  /** `equal_index_configs_by_budget`. */
  method EqualIndexConfigsByBudget(data: seq<Run>) returns (budgets: Groups<string>)
    ensures budgets == GroupedBy(data, ConfigKeys)
  {
    budgets := GroupByBudget(data, ConfigKeys);
  }

  /** The same indexes in any order and with the same repetitions give the same configuration. */
  lemma SameIndexesSameConfig(a: seq<string>, b: seq<string>)
    requires multiset(a) == multiset(b)
    ensures ConfigName(a) == ConfigName(b)
  {
    StrLeIsTotal();
    SortSorted(a, StrLe);
    SortSorted(b, StrLe);
    StrSortedUnique(Sort(a, StrLe), Sort(b, StrLe));
  }

  /** Runs of one budget that selected the same indexes, in whatever order, are listed together. */
  lemma EqualIndexConfigsTogether(data: seq<Run>, budgets: Groups<string>)
    requires budgets == GroupedBy(data, ConfigKeys)
    ensures forall i, j :: (0 <= i < |data| && 0 <= j < |data| && data[i].budgetInBytes == data[j].budgetInBytes &&
      multiset(data[i].selectedIndexes) == multiset(data[j].selectedIndexes)) ==>
        data[i].budgetInBytes in budgets && ConfigName(data[i].selectedIndexes) in budgets[data[i].budgetInBytes] &&
        data[j].sequence in budgets[data[i].budgetInBytes][ConfigName(data[i].selectedIndexes)]
  {
    forall i, j | 0 <= i < |data| && 0 <= j < |data| && data[i].budgetInBytes == data[j].budgetInBytes &&
      multiset(data[i].selectedIndexes) == multiset(data[j].selectedIndexes)
      ensures data[i].budgetInBytes in budgets && ConfigName(data[i].selectedIndexes) in budgets[data[i].budgetInBytes] &&
        data[j].sequence in budgets[data[i].budgetInBytes][ConfigName(data[i].selectedIndexes)]
    {
      SameIndexesSameConfig(data[i].selectedIndexes, data[j].selectedIndexes);
      ListedUnderConfig(data, budgets, j);
    }
  }

  /** A configuration lists exactly the runs of its budget that render to it. */
  lemma EqualIndexConfigsMeaning(data: seq<Run>, budgets: Groups<string>)
    requires budgets == GroupedBy(data, ConfigKeys)
    ensures forall b, c, x :: b in budgets && c in budgets[b] ==>
      (x in budgets[b][c] <==>
        exists i :: 0 <= i < |data| && data[i].budgetInBytes == b && ConfigName(data[i].selectedIndexes) == c && data[i].sequence == x)
  {
    SingleKeyMembers(data, budgets, ConfigKeys, (r: Run) => ConfigName(r.selectedIndexes));
  }

  /** For one key per run: under a budget and a key, the names of exactly the runs of that budget with that key. */
  lemma SingleKeyMembers<K>(data: seq<Run>, budgets: Groups<K>, keysOf: Run -> seq<K>, keyOf: Run -> K)
    requires budgets == GroupedBy(data, keysOf)
    requires forall r :: keysOf(r) == [keyOf(r)]
    ensures forall b, c, x :: b in budgets && c in budgets[b] ==>
      (x in budgets[b][c] <==>
        exists i :: 0 <= i < |data| && data[i].budgetInBytes == b && keyOf(data[i]) == c && data[i].sequence == x)
  {
    forall b, c, x | b in budgets && c in budgets[b]
      ensures x in budgets[b][c] <==>
        exists i :: 0 <= i < |data| && data[i].budgetInBytes == b && keyOf(data[i]) == c && data[i].sequence == x
    {
      GroupedByLists(data, keysOf);
      MembersMeaning(data, b, c, keysOf);
      if exists i :: 0 <= i < |data| && data[i].budgetInBytes == b && keyOf(data[i]) == c && data[i].sequence == x {
        var i :| 0 <= i < |data| && data[i].budgetInBytes == b && keyOf(data[i]) == c && data[i].sequence == x;
        assert c in keysOf(data[i]);
      }
    }
  }

  lemma ListedUnderConfig(data: seq<Run>, budgets: Groups<string>, j: nat)
    requires budgets == GroupedBy(data, ConfigKeys) && j < |data|
    ensures data[j].budgetInBytes in budgets && ConfigName(data[j].selectedIndexes) in budgets[data[j].budgetInBytes]
    ensures data[j].sequence in budgets[data[j].budgetInBytes][ConfigName(data[j].selectedIndexes)]
  {
    var c := ConfigName(data[j].selectedIndexes);
    assert c in ConfigKeys(data[j]);
    GroupedByKeys(data, ConfigKeys);
    GroupedByLists(data, ConfigKeys);
    MembersMeaning(data, data[j].budgetInBytes, c, ConfigKeys);
  }

  /** The keys of `indexes_by_budget`: every index the run selected. */
  function IndexKeys(run: Run): seq<string> {
    run.selectedIndexes
  }

  /** `indexes_by_budget`. */
  method IndexesByBudget(data: seq<Run>) returns (budgets: Groups<string>)
    ensures budgets == GroupedBy(data, IndexKeys)
  {
    budgets := GroupByBudget(data, IndexKeys);
  }

  /**
   * Every budget of a run is a key, also for a run that selected nothing;
   * under it every index some run of that budget selected, listing exactly
   * the names of those runs, in input order and once per time the run
   * lists the index.
   */
  lemma IndexesByBudgetMeaning(data: seq<Run>, budgets: Groups<string>)
    requires budgets == GroupedBy(data, IndexKeys)
    ensures forall i :: 0 <= i < |data| ==> data[i].budgetInBytes in budgets
    ensures forall b, ix :: b in budgets && ix in budgets[b] ==>
      exists i :: 0 <= i < |data| && data[i].budgetInBytes == b && ix in data[i].selectedIndexes
    ensures forall i, ix :: 0 <= i < |data| && ix in data[i].selectedIndexes ==>
      data[i].budgetInBytes in budgets && ix in budgets[data[i].budgetInBytes]
    ensures forall b, ix, x :: b in budgets && ix in budgets[b] ==>
      (x in budgets[b][ix] <==>
        exists i :: 0 <= i < |data| && data[i].budgetInBytes == b && ix in data[i].selectedIndexes && data[i].sequence == x)
    ensures forall b, ix :: b in budgets && ix in budgets[b] ==> budgets[b][ix] == Members(data, b, ix, IndexKeys)
  {
    GroupedByKeys(data, IndexKeys);
    GroupedByLists(data, IndexKeys);
    forall b, ix, x | b in budgets && ix in budgets[b]
      ensures x in budgets[b][ix] <==>
        exists i :: 0 <= i < |data| && data[i].budgetInBytes == b && ix in data[i].selectedIndexes && data[i].sequence == x
    {
      MembersMeaning(data, b, ix, IndexKeys);
    }
  }

  // ------------------------------------------------------------ costs by query

  /** For each budget and query, the cost of each run by name. */
  type CostTable = map<int, map<string, map<string, real>>>

  /** One run's costs entered under its queries, replacing an earlier run of the same name. */
  function AddCosts(inner: map<string, map<string, real>>, run: Run): map<string, map<string, real>> {
    map q | q in inner.Keys + run.costsByQuery.Keys ::
      if q in run.costsByQuery then (if q in inner then inner[q] else map[])[run.sequence := run.costsByQuery[q]]
      else inner[q]
  }

  /** The table of `costs_by_query` after the runs of `data` in order. */
  function CostsTable(data: seq<Run>): CostTable {
    if |data| == 0 then map[]
    else
      var t := CostsTable(data[..|data| - 1]);
      var run := data[|data| - 1];
      t[run.budgetInBytes := AddCosts(if run.budgetInBytes in t then t[run.budgetInBytes] else map[], run)]
  }

  /** `costs_by_query`: the queries of a run are visited in some order, which the result does not depend on. */
  method CostsByQuery(data: seq<Run>) returns (budgets: CostTable)
    ensures budgets == CostsTable(data)
  {
    budgets := map[];
    for i := 0 to |data|
      invariant budgets == CostsTable(data[..i])
    {
      var item := data[i];
      assert data[..i + 1][..i] == data[..i];
      if item.budgetInBytes !in budgets {
        budgets := budgets[item.budgetInBytes := map[]];
      }
      var inner := EnterCosts(budgets[item.budgetInBytes], item);
      budgets := budgets[item.budgetInBytes := inner];
    }
    assert data[..|data|] == data;
  }

  /** The inner loop of `costs_by_query`, over one run's queries. */
  method EnterCosts(start: map<string, map<string, real>>, item: Run) returns (inner: map<string, map<string, real>>)
    ensures inner == AddCosts(start, item)
  {
    inner := start;
    var todo := item.costsByQuery.Keys;
    ghost var done: set<string> := {};
    while todo != {}
      invariant todo + done == item.costsByQuery.Keys && todo !! done
      invariant inner == map q | q in start.Keys + done ::
        if q in done then (if q in start then start[q] else map[])[item.sequence := item.costsByQuery[q]] else start[q]
      decreases todo
    {
      var queryId :| queryId in todo;
      if queryId !in inner {
        inner := inner[queryId := map[]];
      }
      inner := inner[queryId := inner[queryId][item.sequence := item.costsByQuery[queryId]]];
      todo := todo - {queryId};
      done := done + {queryId};
    }
  }

  /** What one run changes: it enters its own costs and keeps every other entry. */
  lemma AddCostsMeaning(inner: map<string, map<string, real>>, run: Run)
    ensures forall q :: q in AddCosts(inner, run) <==> q in inner || q in run.costsByQuery
    ensures forall q :: q in run.costsByQuery ==>
      run.sequence in AddCosts(inner, run)[q] && AddCosts(inner, run)[q][run.sequence] == run.costsByQuery[q]
    ensures forall q, x :: q in inner && x in inner[q] ==> x in AddCosts(inner, run)[q]
    ensures forall q, x :: q in AddCosts(inner, run) && x in AddCosts(inner, run)[q] && !(q in run.costsByQuery && x == run.sequence) ==>
      q in inner && x in inner[q] && AddCosts(inner, run)[q][x] == inner[q][x]
  {
  }

  /** The run `i` is the last of `data` to enter a cost of budget `b`, query `q` and name `x`. */
  predicate LastEntry(data: seq<Run>, i: int, b: int, q: string, x: string) {
    0 <= i < |data| && data[i].budgetInBytes == b && q in data[i].costsByQuery && data[i].sequence == x &&
    forall j :: i < j < |data| ==> !(data[j].budgetInBytes == b && q in data[j].costsByQuery && data[j].sequence == x)
  }

  /** The table holds exactly the budgets of the runs. */
  lemma {:induction false} CostsTableBudgets(data: seq<Run>)
    ensures forall i :: 0 <= i < |data| ==> data[i].budgetInBytes in CostsTable(data)
    ensures forall b :: b in CostsTable(data) ==> exists i :: 0 <= i < |data| && data[i].budgetInBytes == b
  {
    if |data| > 0 {
      var front := data[..|data| - 1];
      CostsTableBudgets(front);
      assert forall i :: 0 <= i < |front| ==> front[i] == data[i];
      forall b | b in CostsTable(data) ensures exists i :: 0 <= i < |data| && data[i].budgetInBytes == b {
        if b != data[|front|].budgetInBytes {
          var i :| 0 <= i < |front| && front[i].budgetInBytes == b;
          assert data[i] == front[i];
        }
      }
    }
  }

  /** Every query of every run has that run's name under its budget. */
  lemma {:induction false} CostsTableEntries(data: seq<Run>)
    ensures forall i, q :: 0 <= i < |data| && q in data[i].costsByQuery ==>
      data[i].budgetInBytes in CostsTable(data) && q in CostsTable(data)[data[i].budgetInBytes] &&
      data[i].sequence in CostsTable(data)[data[i].budgetInBytes][q]
  {
    if |data| > 0 {
      var front := data[..|data| - 1];
      var run := data[|data| - 1];
      CostsTableEntries(front);
      var t := CostsTable(front);
      var inner := if run.budgetInBytes in t then t[run.budgetInBytes] else map[];
      AddCostsMeaning(inner, run);
      forall i, q | 0 <= i < |data| && q in data[i].costsByQuery
        ensures data[i].budgetInBytes in CostsTable(data) && q in CostsTable(data)[data[i].budgetInBytes] &&
          data[i].sequence in CostsTable(data)[data[i].budgetInBytes][q]
      {
        if i < |front| {
          assert front[i] == data[i];
          if data[i].budgetInBytes == run.budgetInBytes {
            assert q in inner && data[i].sequence in inner[q];
          }
        } else {
          assert data[i] == run;
        }
      }
    }
  }

  /** A cost in the table is the one the last run of that name, budget and query has. */
  lemma {:induction false} CostsTableLast(data: seq<Run>)
    ensures forall b, q, x :: b in CostsTable(data) && q in CostsTable(data)[b] && x in CostsTable(data)[b][q] ==>
      exists i :: LastEntry(data, i, b, q, x) && CostsTable(data)[b][q][x] == data[i].costsByQuery[q]
  {
    if |data| > 0 {
      var front := data[..|data| - 1];
      var run := data[|data| - 1];
      CostsTableLast(front);
      var t := CostsTable(front);
      var inner := if run.budgetInBytes in t then t[run.budgetInBytes] else map[];
      AddCostsMeaning(inner, run);
      var whole := CostsTable(data);
      assert whole == t[run.budgetInBytes := AddCosts(inner, run)];
      forall b, q, x | b in whole && q in whole[b] && x in whole[b][q]
        ensures exists i :: LastEntry(data, i, b, q, x) && whole[b][q][x] == data[i].costsByQuery[q]
      {
        if b == run.budgetInBytes && q in run.costsByQuery && x == run.sequence {
          assert LastEntry(data, |front|, b, q, x);
        } else {
          EntryBefore(t, run, b, q, x);
          var i :| LastEntry(front, i, b, q, x) && t[b][q][x] == front[i].costsByQuery[q];
          LastEntryStep(data, i, b, q, x);
        }
      }
    }
  }

  /** A cost in the table after `run` that `run` did not enter was in the table before, unchanged. */
  lemma EntryBefore(t: CostTable, run: Run, b: int, q: string, x: string)
    requires var inner := if run.budgetInBytes in t then t[run.budgetInBytes] else map[];
      var whole := t[run.budgetInBytes := AddCosts(inner, run)];
      b in whole && q in whole[b] && x in whole[b][q]
    requires !(b == run.budgetInBytes && q in run.costsByQuery && x == run.sequence)
    ensures var inner := if run.budgetInBytes in t then t[run.budgetInBytes] else map[];
      var whole := t[run.budgetInBytes := AddCosts(inner, run)];
      b in t && q in t[b] && x in t[b][q] && whole[b][q][x] == t[b][q][x]
  {
    var inner := if run.budgetInBytes in t then t[run.budgetInBytes] else map[];
    AddCostsMeaning(inner, run);
  }

  /** The last entry among the runs before `data`'s last stays the last when that run did not enter it. */
  lemma LastEntryStep(data: seq<Run>, i: int, b: int, q: string, x: string)
    requires |data| > 0 && LastEntry(data[..|data| - 1], i, b, q, x)
    requires var run := data[|data| - 1]; !(b == run.budgetInBytes && q in run.costsByQuery && x == run.sequence)
    ensures LastEntry(data, i, b, q, x) && data[i] == data[..|data| - 1][i]
  {
  }

  // ------------------------------------------------------------ comparing algorithms

  /** A line of `totals`: a run's name and overall cost, and for a compared run its difference to the baseline. */
  datatype Total = Total(sequence: string, overallCosts: real, difference: Option<real>)

  /** An entry of `total_index_configs`: the baseline's indexes, or a compared run's split against them. */
  datatype IndexConfig =
    | BaseIndexes(indexes: seq<string>)
    | Split(shared: set<string>, compareOnly: set<string>, baseOnly: set<string>)

  /** An entry under a query: the baseline's cost, or a compared run's cost, difference and index split. */
  datatype QueryEntry =
    | BaseCost(cost: real)
    | Against(cost: real, difference: real, shared: set<string>, compareOnly: set<string>, baseOnly: set<string>)

  /** The dictionary `compare_algorithm_costs` returns. */
  datatype Comparison = Comparison(
    totals: seq<Total>,
    totalIndexConfigs: map<string, IndexConfig>,
    queries: map<string, map<string, QueryEntry>>)

  predicate IsBaseline(run: Run, budget: int, baselineIdent: string) {
    run.sequence == baselineIdent && run.budgetInBytes == budget
  }

  predicate IsCompared(run: Run, budget: int, compareAlgorithms: seq<string>) {
    run.sequence in compareAlgorithms && run.budgetInBytes == budget
  }

  /** The baseline the selection loop keeps: the last run with its name and the budget. */
  function LastBaseline(data: seq<Run>, budget: int, baselineIdent: string): Option<Run> {
    if |data| == 0 then None
    else if IsBaseline(data[|data| - 1], budget, baselineIdent) then Some(data[|data| - 1])
    else LastBaseline(data[..|data| - 1], budget, baselineIdent)
  }

  /** The runs the selection loop appends: those of a compared algorithm and the budget, in input order. */
  function ComparedRuns(data: seq<Run>, budget: int, compareAlgorithms: seq<string>): seq<Run> {
    if |data| == 0 then []
    else
      var rest := ComparedRuns(data[..|data| - 1], budget, compareAlgorithms);
      if IsCompared(data[|data| - 1], budget, compareAlgorithms) then rest + [data[|data| - 1]] else rest
  }

  /** The baseline is the last run with its name and the budget; there is none exactly when no run matches. */
  lemma {:induction false} LastBaselineMeaning(data: seq<Run>, budget: int, baselineIdent: string)
    ensures LastBaseline(data, budget, baselineIdent).None? <==>
      forall i :: 0 <= i < |data| ==> !IsBaseline(data[i], budget, baselineIdent)
    ensures LastBaseline(data, budget, baselineIdent).Some? ==>
      exists i :: 0 <= i < |data| && data[i] == LastBaseline(data, budget, baselineIdent).value &&
        IsBaseline(data[i], budget, baselineIdent) &&
        forall j :: i < j < |data| ==> !IsBaseline(data[j], budget, baselineIdent)
  {
    if |data| > 0 && !IsBaseline(data[|data| - 1], budget, baselineIdent) {
      var front := data[..|data| - 1];
      LastBaselineMeaning(front, budget, baselineIdent);
      assert forall i :: 0 <= i < |front| ==> front[i] == data[i];
    }
  }

  /** The compared runs are exactly the matching runs. */
  lemma {:induction false} ComparedRunsMeaning(data: seq<Run>, budget: int, compareAlgorithms: seq<string>)
    ensures forall r :: r in ComparedRuns(data, budget, compareAlgorithms) <==> r in data && IsCompared(r, budget, compareAlgorithms)
  {
    if |data| > 0 {
      var front := data[..|data| - 1];
      ComparedRunsMeaning(front, budget, compareAlgorithms);
      assert data == front + [data[|data| - 1]];
    }
  }

  /** The query entry of a compared run, with the two sets of lines 126-129 as written. */
  function QueryEntryOf(base: Run, item: Run, q: string): QueryEntry
    requires q in item.costsByQuery && q in item.algorithmIndexesByQuery && q in base.costsByQuery
  {
    var baseQuerySet := item.algorithmIndexesByQuery.Keys;
    var compareQuerySet := SetOf(item.algorithmIndexesByQuery[q]);
    Against(item.costsByQuery[q], item.costsByQuery[q] - base.costsByQuery[q],
      baseQuerySet * compareQuerySet, compareQuerySet - baseQuerySet, baseQuerySet - baseQuerySet)
  }

  /** Every query of the compared run can be looked up where the loop looks it up. */
  predicate QueriesFit(queries: map<string, map<string, QueryEntry>>, base: Run, item: Run) {
    forall q :: q in item.costsByQuery ==> q in item.algorithmIndexesByQuery && q in base.costsByQuery && q in queries
  }

  /** The queries table after one compared run. */
  function QueriesAgainst(queries: map<string, map<string, QueryEntry>>, base: Run, item: Run): map<string, map<string, QueryEntry>>
    requires QueriesFit(queries, base, item)
  {
    map q | q in queries :: if q in item.costsByQuery then queries[q][item.sequence := QueryEntryOf(base, item, q)] else queries[q]
  }

  /** The dictionary before any compared run. */
  function Initial(base: Run): Comparison {
    Comparison(
      [Total(base.sequence, base.overallCosts, None)],
      map["Base_indexes" := BaseIndexes(base.selectedIndexes)],
      map q | q in base.costsByQuery :: map["base" := BaseCost(base.costsByQuery[q])])
  }

  /** The index split of a compared run against the baseline. */
  function SplitOf(base: Run, item: Run): IndexConfig {
    var baseSet := SetOf(base.selectedIndexes);
    var compareSet := SetOf(item.selectedIndexes);
    Split(baseSet * compareSet, compareSet - baseSet, baseSet - compareSet)
  }

  /** The dictionary after the compared runs, in order; a KeyError where a query cannot be looked up. */
  function Comparing(base: Run, compare: seq<Run>): Result<Comparison> {
    if |compare| == 0 then Ok(Initial(base))
    else
      match Comparing(base, compare[..|compare| - 1])
      case Err(e) => Err(e)
      case Ok(c) =>
        var item := compare[|compare| - 1];
        if !QueriesFit(c.queries, base, item) then Err("KeyError")
        else Ok(Comparison(
          c.totals + [Total(item.sequence, item.overallCosts, Some(item.overallCosts - base.overallCosts))],
          c.totalIndexConfigs[item.sequence := SplitOf(base, item)],
          QueriesAgainst(c.queries, base, item)))
  }

  /** Once a compared run fails, so does the comparison of all of them. */
  lemma {:induction false} ComparingStops(base: Run, compare: seq<Run>, k: nat)
    requires k <= |compare| && Comparing(base, compare[..k]).Err?
    ensures Comparing(base, compare) == Comparing(base, compare[..k])
    decreases |compare| - k
  {
    if k < |compare| {
      assert compare[..k + 1][..k] == compare[..k];
      ComparingStops(base, compare, k + 1);
    } else {
      assert compare[..k] == compare;
    }
  }

  /** `compare_algorithm_costs`: nothing when the baseline or every compared run is missing. */
  function CompareAlgorithmCostsOf(data: seq<Run>, budget: int, baselineIdent: string, compareAlgorithms: seq<string>): Result<Option<Comparison>> {
    var base := LastBaseline(data, budget, baselineIdent);
    var compare := ComparedRuns(data, budget, compareAlgorithms);
    if base.None? || |compare| < 1 then Ok(None)
    else
      match Comparing(base.value, compare)
      case Err(e) => Err(e)
      case Ok(c) => Ok(Some(c))
  }

  /** `compare_algorithm_costs`. */
  method CompareAlgorithmCosts(data: seq<Run>, budget: int, baselineIdent: string, compareAlgorithms: seq<string>)
    returns (r: Result<Option<Comparison>>)
    ensures r == CompareAlgorithmCostsOf(data, budget, baselineIdent, compareAlgorithms)
  {
    var base: Option<Run> := None;
    var compare: seq<Run> := [];
    for i := 0 to |data|
      invariant base == LastBaseline(data[..i], budget, baselineIdent)
      invariant compare == ComparedRuns(data[..i], budget, compareAlgorithms)
    {
      assert data[..i + 1][..i] == data[..i];
      var item := data[i];
      if item.sequence == baselineIdent && item.budgetInBytes == budget {
        base := Some(item);
      }
      if item.sequence in compareAlgorithms && item.budgetInBytes == budget {
        compare := compare + [item];
      }
    }
    assert data[..|data|] == data;
    if base.None? {
      return Ok(None);
    }
    if |compare| < 1 {
      return Ok(None);
    }
    var b := base.value;
    var totals := [Total(b.sequence, b.overallCosts, None)];
    var configs := map["Base_indexes" := BaseIndexes(b.selectedIndexes)];
    var queries := BaseQueries(b);
    var baseSelectedIndexesSet := SetOf(b.selectedIndexes);
    for k := 0 to |compare|
      invariant Comparing(b, compare[..k]) == Ok(Comparison(totals, configs, queries))
    {
      assert compare[..k + 1][..k] == compare[..k];
      var item := compare[k];
      totals := totals + [Total(item.sequence, item.overallCosts, Some(item.overallCosts - b.overallCosts))];
      var compareSelectedIndexesSet := SetOf(item.selectedIndexes);
      configs := configs[item.sequence := Split(
        baseSelectedIndexesSet * compareSelectedIndexesSet,
        compareSelectedIndexesSet - baseSelectedIndexesSet,
        baseSelectedIndexesSet - compareSelectedIndexesSet)];
      var next := CompareQueries(queries, b, item);
      if next.Err? {
        assert Comparing(b, compare[..k + 1]) == Err("KeyError");
        ComparingStops(b, compare, k + 1);
        return Err(next.error);
      }
      queries := next.value;
    }
    assert compare[..|compare|] == compare;
    r := Ok(Some(Comparison(totals, configs, queries)));
  }

  /** The loop over the baseline's queries. */
  method BaseQueries(base: Run) returns (queries: map<string, map<string, QueryEntry>>)
    ensures queries == Initial(base).queries
  {
    queries := map[];
    var todo := base.costsByQuery.Keys;
    while todo != {}
      invariant todo <= base.costsByQuery.Keys
      invariant queries == map q | q in base.costsByQuery.Keys - todo :: map["base" := BaseCost(base.costsByQuery[q])]
      decreases todo
    {
      var q :| q in todo;
      queries := queries[q := map["base" := BaseCost(base.costsByQuery[q])]];
      todo := todo - {q};
    }
  }

  /** The loop over a compared run's queries; a KeyError where a lookup fails. */
  method CompareQueries(queries: map<string, map<string, QueryEntry>>, base: Run, item: Run)
    returns (r: Result<map<string, map<string, QueryEntry>>>)
    ensures r == if QueriesFit(queries, base, item) then Ok(QueriesAgainst(queries, base, item)) else Err("KeyError")
  {
    var out := queries;
    var todo := item.costsByQuery.Keys;
    ghost var done: set<string> := {};
    while todo != {}
      invariant todo + done == item.costsByQuery.Keys && todo !! done
      invariant forall p :: p in done ==> p in item.algorithmIndexesByQuery && p in base.costsByQuery && p in queries
      invariant out == map p | p in queries :: if p in done then queries[p][item.sequence := QueryEntryOf(base, item, p)] else queries[p]
      decreases todo
    {
      var query :| query in todo;
      if query !in item.algorithmIndexesByQuery || query !in base.costsByQuery || query !in out {
        return Err("KeyError");
      }
      out := out[query := out[query][item.sequence := QueryEntryOf(base, item, query)]];
      todo := todo - {query};
      done := done + {query};
    }
    r := Ok(out);
  }

  /** The comparison is nothing exactly when no run is the baseline or no run is compared. */
  lemma CompareNothingMeaning(data: seq<Run>, budget: int, baselineIdent: string, compareAlgorithms: seq<string>)
    ensures CompareAlgorithmCostsOf(data, budget, baselineIdent, compareAlgorithms) == Ok(None) <==>
      (forall i :: 0 <= i < |data| ==> !IsBaseline(data[i], budget, baselineIdent)) ||
      (forall i :: 0 <= i < |data| ==> !IsCompared(data[i], budget, compareAlgorithms))
  {
    LastBaselineMeaning(data, budget, baselineIdent);
    ComparedRunsMeaning(data, budget, compareAlgorithms);
    var compare := ComparedRuns(data, budget, compareAlgorithms);
    if |compare| > 0 {
      assert compare[0] in compare;
    }
    if exists i :: 0 <= i < |data| && IsCompared(data[i], budget, compareAlgorithms) {
      var i :| 0 <= i < |data| && IsCompared(data[i], budget, compareAlgorithms);
      assert data[i] in data;
    }
  }

  /** Each query of each compared run has indexes listed for it and a baseline cost. */
  predicate AllFit(base: Run, compare: seq<Run>) {
    forall k :: 0 <= k < |compare| ==> RunFits(base, compare[k])
  }

  /** Every query a compared run has a cost for has its indexes listed and a baseline cost. */
  predicate RunFits(base: Run, item: Run) {
    forall q :: q in item.costsByQuery ==> q in item.algorithmIndexesByQuery && q in base.costsByQuery
  }

  /**
   * Comparing fails, with a KeyError, exactly when some compared run has
   * a query it lists no indexes for or the baseline has no cost for;
   * otherwise the queries are exactly the baseline's.
   */
  lemma {:induction false} ComparingFails(base: Run, compare: seq<Run>)
    ensures Comparing(base, compare).Ok? <==> AllFit(base, compare)
    ensures Comparing(base, compare).Err? ==> Comparing(base, compare).error == "KeyError"
    ensures Comparing(base, compare).Ok? ==> Comparing(base, compare).value.queries.Keys == base.costsByQuery.Keys
  {
    if |compare| > 0 {
      var front := compare[..|compare| - 1];
      var item := compare[|compare| - 1];
      ComparingFails(base, front);
      AllFitStep(base, compare);
      if Comparing(base, front).Ok? {
        var c := Comparing(base, front).value;
        assert QueriesFit(c.queries, base, item) <==> RunFits(base, item);
      }
    }
  }

  /** All compared runs fit exactly when those before the last do and the last does. */
  lemma AllFitStep(base: Run, compare: seq<Run>)
    requires |compare| > 0
    ensures AllFit(base, compare) <==> AllFit(base, compare[..|compare| - 1]) && RunFits(base, compare[|compare| - 1])
  {
    var front := compare[..|compare| - 1];
    assert forall k :: 0 <= k < |front| ==> front[k] == compare[k];
  }

  /** The totals: the baseline first, then each compared run in order with its difference to the baseline. */
  lemma {:induction false} ComparingTotals(base: Run, compare: seq<Run>)
    ensures Comparing(base, compare).Ok? ==>
      var totals := Comparing(base, compare).value.totals;
      |totals| == |compare| + 1 && totals[0] == Total(base.sequence, base.overallCosts, None) &&
      forall k :: 0 <= k < |compare| ==>
        totals[k + 1] == Total(compare[k].sequence, compare[k].overallCosts, Some(compare[k].overallCosts - base.overallCosts))
  {
    if |compare| > 0 {
      var front := compare[..|compare| - 1];
      ComparingTotals(base, front);
      assert forall k :: 0 <= k < |front| ==> front[k] == compare[k];
    }
  }

  /** The index splits are keyed by the baseline entry and the compared runs' names. */
  lemma {:induction false} ComparingConfigKeys(base: Run, compare: seq<Run>)
    ensures Comparing(base, compare).Ok? ==>
      forall name :: name in Comparing(base, compare).value.totalIndexConfigs <==>
        name == "Base_indexes" || exists k :: 0 <= k < |compare| && compare[k].sequence == name
  {
    if |compare| > 0 {
      var front := compare[..|compare| - 1];
      var item := compare[|compare| - 1];
      ComparingConfigKeys(base, front);
      if Comparing(base, compare).Ok? {
        var configs := Comparing(base, compare).value.totalIndexConfigs;
        forall name ensures name in configs <==> name == "Base_indexes" || exists k :: 0 <= k < |compare| && compare[k].sequence == name {
          if exists k :: 0 <= k < |compare| && compare[k].sequence == name {
            var k :| 0 <= k < |compare| && compare[k].sequence == name;
            if k < |front| {
              assert front[k].sequence == name;
            }
          }
          if name in configs && name != "Base_indexes" && name != item.sequence {
            var k :| 0 <= k < |front| && front[k].sequence == name;
            assert compare[k].sequence == name;
          }
        }
      }
    }
  }

  /** A compared run's split (its last one, when names repeat) is the intersection and the two differences of the index sets. */
  lemma {:induction false} ComparingSplits(base: Run, compare: seq<Run>)
    ensures Comparing(base, compare).Ok? ==>
      forall k :: (0 <= k < |compare| && forall l :: k < l < |compare| ==> compare[l].sequence != compare[k].sequence) ==>
        compare[k].sequence in Comparing(base, compare).value.totalIndexConfigs &&
        Comparing(base, compare).value.totalIndexConfigs[compare[k].sequence] == Split(
          SetOf(base.selectedIndexes) * SetOf(compare[k].selectedIndexes),
          SetOf(compare[k].selectedIndexes) - SetOf(base.selectedIndexes),
          SetOf(base.selectedIndexes) - SetOf(compare[k].selectedIndexes))
  {
    if |compare| > 0 {
      var front := compare[..|compare| - 1];
      var item := compare[|compare| - 1];
      ComparingSplits(base, front);
      if Comparing(base, compare).Ok? {
        var configs := Comparing(base, compare).value.totalIndexConfigs;
        var before := Comparing(base, front).value.totalIndexConfigs;
        assert configs == before[item.sequence := SplitOf(base, item)];
        forall k | 0 <= k < |compare| && (forall l :: k < l < |compare| ==> compare[l].sequence != compare[k].sequence)
          ensures compare[k].sequence in configs && configs[compare[k].sequence] == SplitOf(base, compare[k])
        {
          if k < |front| {
            assert front[k] == compare[k];
            assert compare[|front|].sequence != compare[k].sequence;
            forall l | k < l < |front| ensures front[l].sequence != front[k].sequence {
              assert front[l] == compare[l];
            }
            assert before[front[k].sequence] == SplitOf(base, front[k]);
          }
        }
      }
    }
  }

  /** The baseline entry keeps the baseline's indexes unless a compared run has its name. */
  lemma {:induction false} ComparingBaseIndexes(base: Run, compare: seq<Run>)
    ensures (Comparing(base, compare).Ok? && forall k :: 0 <= k < |compare| ==> compare[k].sequence != "Base_indexes") ==>
      "Base_indexes" in Comparing(base, compare).value.totalIndexConfigs &&
      Comparing(base, compare).value.totalIndexConfigs["Base_indexes"] == BaseIndexes(base.selectedIndexes)
  {
    if |compare| > 0 {
      var front := compare[..|compare| - 1];
      ComparingBaseIndexes(base, front);
      assert forall k :: 0 <= k < |front| ==> front[k] == compare[k];
      assert compare[|front|] == compare[|compare| - 1];
    }
  }

  /**
   * Every compared entry under a query has an empty `base_only`, since
   * line 136 takes a set minus itself, and its difference to the
   * baseline's cost of that query.
   */
  lemma {:induction false} ComparingBaseOnlyEmpty(base: Run, compare: seq<Run>)
    ensures Comparing(base, compare).Ok? ==> EntriesAgainst(Comparing(base, compare).value.queries, base)
  {
    if |compare| > 0 {
      var front := compare[..|compare| - 1];
      var item := compare[|compare| - 1];
      ComparingBaseOnlyEmpty(base, front);
      if Comparing(base, compare).Ok? {
        var c := Comparing(base, front).value;
        assert EntriesAgainst(c.queries, base);
        assert QueriesFit(c.queries, base, item);
        var queries: map<string, map<string, QueryEntry>> := QueriesAgainst(c.queries, base, item);
        assert queries == Comparing(base, compare).value.queries;
        forall q: string, x: string | q in queries && x in queries[q] && queries[q][x].Against?
          ensures queries[q][x].baseOnly == {} && q in base.costsByQuery &&
            queries[q][x].difference == queries[q][x].cost - base.costsByQuery[q]
        {
          assert q in c.queries;
          if q in item.costsByQuery && x == item.sequence {
            assert queries[q][x] == QueryEntryOf(base, item, q);
          } else {
            assert x in c.queries[q];
            assert queries[q][x] == c.queries[q][x];
          }
        }
      }
    }
  }

  /** Each compared entry: an empty `base_only` and the difference to the baseline's cost. */
  predicate EntriesAgainst(queries: map<string, map<string, QueryEntry>>, base: Run) {
    forall q, x :: q in queries && x in queries[q] && queries[q][x].Against? ==>
      queries[q][x].baseOnly == {} && q in base.costsByQuery &&
      queries[q][x].difference == queries[q][x].cost - base.costsByQuery[q]
  }

  /** The baseline entry of a query stays unless a compared run named `base` has that query. */
  lemma {:induction false} ComparingBaseEntries(base: Run, compare: seq<Run>)
    ensures Comparing(base, compare).Ok? ==>
      var queries := Comparing(base, compare).value.queries;
      forall q :: (q in base.costsByQuery &&
        forall k :: 0 <= k < |compare| && q in compare[k].costsByQuery ==> compare[k].sequence != "base") ==>
          q in queries && "base" in queries[q] && queries[q]["base"] == BaseCost(base.costsByQuery[q])
  {
    if |compare| > 0 {
      var front := compare[..|compare| - 1];
      var item := compare[|compare| - 1];
      ComparingBaseEntries(base, front);
      ComparingFails(base, front);
      if Comparing(base, compare).Ok? {
        var c := Comparing(base, front).value;
        var queries: map<string, map<string, QueryEntry>> := Comparing(base, compare).value.queries;
        forall q | q in base.costsByQuery &&
          (forall k :: 0 <= k < |compare| && q in compare[k].costsByQuery ==> compare[k].sequence != "base")
          ensures q in queries && "base" in queries[q] && queries[q]["base"] == BaseCost(base.costsByQuery[q])
        {
          assert forall k :: 0 <= k < |front| ==> front[k] == compare[k];
          assert compare[|front|] == item;
        }
      }
    }
  }

  /** A compared run's entry under a query (its last one, when names repeat) is its entry of lines 126-137. */
  lemma {:induction false} ComparingRunEntries(base: Run, compare: seq<Run>)
    ensures Comparing(base, compare).Ok? ==>
      var queries := Comparing(base, compare).value.queries;
      forall k, q :: 0 <= k < |compare| && q in compare[k].costsByQuery && LastOfName(compare, k, q) ==>
        q in compare[k].algorithmIndexesByQuery && q in base.costsByQuery &&
        q in queries && compare[k].sequence in queries[q] && queries[q][compare[k].sequence] == QueryEntryOf(base, compare[k], q)
  {
    if |compare| > 0 {
      var front := compare[..|compare| - 1];
      var item := compare[|compare| - 1];
      ComparingRunEntries(base, front);
      ComparingFails(base, front);
      ComparingFails(base, compare);
      if Comparing(base, compare).Ok? {
        AllFitStep(base, compare);
        var c := Comparing(base, front).value;
        var queries: map<string, map<string, QueryEntry>> := Comparing(base, compare).value.queries;
        assert queries == QueriesAgainst(c.queries, base, item);
        forall k, q | 0 <= k < |compare| && q in compare[k].costsByQuery && LastOfName(compare, k, q)
          ensures q in compare[k].algorithmIndexesByQuery && q in base.costsByQuery &&
            q in queries && compare[k].sequence in queries[q] && queries[q][compare[k].sequence] == QueryEntryOf(base, compare[k], q)
        {
          assert RunFits(base, compare[k]);
          var x := compare[k].sequence;
          QueriesAgainstAt(c.queries, base, item, q, x);
          if k < |front| {
            LastEntryAmongFront(compare, k, q);
            assert q in front[k].costsByQuery;
            assert q in c.queries && x in c.queries[q] && c.queries[q][x] == QueryEntryOf(base, front[k], q);
          } else {
            assert compare[k] == item;
          }
        }
      }
    }
  }

  /** No compared run after the k-th has a cost for `q` under the same name. */
  predicate LastOfName(compare: seq<Run>, k: int, q: string)
    requires 0 <= k < |compare|
  {
    forall l :: k < l < |compare| && q in compare[l].costsByQuery ==> compare[l].sequence != compare[k].sequence
  }

  /** A last entry of the compared runs that is not the final run is a last entry among the runs before it. */
  lemma LastEntryAmongFront(compare: seq<Run>, k: int, q: string)
    requires 0 <= k < |compare| - 1 && LastOfName(compare, k, q)
    ensures var front := compare[..|compare| - 1];
      front[k] == compare[k] && LastOfName(front, k, q) &&
      !(q in compare[|compare| - 1].costsByQuery && compare[|compare| - 1].sequence == compare[k].sequence)
  {
    var front := compare[..|compare| - 1];
    assert forall l :: k < l < |front| ==> front[l] == compare[l];
    assert compare[|compare| - 1] == compare[|front|];
  }

  /** One compared run enters its own cost under each of its queries and leaves every other entry as it was. */
  lemma QueriesAgainstAt(queries: map<string, map<string, QueryEntry>>, base: Run, item: Run, q: string, x: string)
    requires QueriesFit(queries, base, item)
    ensures var r := QueriesAgainst(queries, base, item);
      (q in item.costsByQuery ==> q in r && item.sequence in r[q] && r[q][item.sequence] == QueryEntryOf(base, item, q)) &&
      (q in queries && x in queries[q] && !(q in item.costsByQuery && x == item.sequence) ==>
        q in r && x in r[q] && r[q][x] == queries[q][x])
  {
  }
}
