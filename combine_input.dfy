/**
 * combine_input.py: merges two ILP inputs of the CoPhy input generation
 * into one. Indexes are identified by their column names and combinations
 * by their set of indexes, so the file-local ids of the two inputs do not
 * matter; a size or a cost given twice must agree. The merged input is
 * numbered afresh.
 *
 * The inputs are the decoded JSON dictionaries; reading and writing the
 * files (and the debug prints) are not modelled.
 */
module CombineInput {
  import opened Common

  /** An index is identified by its column names (`tuple(column_names)`). */
  type Key = seq<string>

  /** A combination is identified by the set of its indexes (`frozenset`). */
  type Combination = set<Key>

  datatype IndexEntry = IndexEntry(indexId: int, estimatedSize: int, columnNames: Key)

  datatype CombinationEntry = CombinationEntry(combinationId: int, indexIds: seq<int>)

  datatype CostEntry = CostEntry(queryNumber: int, combinationId: int, costs: real)

  /** The parts of an input file that are read. */
  datatype IlpInput = IlpInput(queries: seq<int>, indexSizes: seq<IndexEntry>,
                               indexCombinations: seq<CombinationEntry>, queryCosts: seq<CostEntry>)

  /**
   * The merged information: `index_sizes` and
   * `query_costs_for_index_combination`, each dictionary with its keys in
   * insertion order.
   */
  datatype Merged = Merged(keys: seq<Key>, sizes: map<Key, int>,
                           combinations: seq<Combination>, costs: map<Combination, map<int, real>>)

  /** The written `ilp_dict` (its three `None` statistics are not modelled). */
  datatype IlpDict = IlpDict(numberOfIndexes: int, numberOfIndexCombinations: int, queries: seq<int>,
                             indexSizes: seq<IndexEntry>, indexCombinations: seq<CombinationEntry>,
                             queryCosts: seq<CostEntry>)

  const Empty := Merged([], map[], [], map[])

  /**
   * The key orders list the dictionaries' keys once each, and every index
   * of a combination has a size.
   */
  ghost predicate WellFormed(m: Merged) {
    Distinct(m.keys) && SetOf(m.keys) == m.sizes.Keys &&
    Distinct(m.combinations) && SetOf(m.combinations) == m.costs.Keys &&
    forall c :: c in m.costs ==> c <= m.sizes.Keys
  }

  // ------------------------------------------------------------ index sizes

  /**
   * One entry of `index_sizes`: its size is stored under its column names
   * (the second file asserts that a known size is equal) and its id is
   * mapped to them.
   */
  function IndexStep(m: Merged, perId: map<int, Key>, e: IndexEntry, checked: bool): Result<(Merged, map<int, Key>)> {
    var key := e.columnNames;
    if checked && key in m.sizes && m.sizes[key] != e.estimatedSize then Err("AssertionError")
    else Ok((m.(keys := AddNew(m.keys, key), sizes := m.sizes[key := e.estimatedSize]), perId[e.indexId := key]))
  }

  /** The loop over `index_sizes`, starting from an empty `index_per_id`. */
  function AddIndexes(m: Merged, entries: seq<IndexEntry>, checked: bool): Result<(Merged, map<int, Key>)> {
    if |entries| == 0 then Ok((m, map[]))
    else
      var r := AddIndexes(m, entries[..|entries| - 1], checked);
      if r.Err? then r else IndexStep(r.value.0, r.value.1, entries[|entries| - 1], checked)
  }

  method LoadIndexes(m: Merged, entries: seq<IndexEntry>, checked: bool) returns (r: Result<(Merged, map<int, Key>)>)
    ensures r == AddIndexes(m, entries, checked)
  {
    var merged := m;
    var perId: map<int, Key> := map[];
    var i := 0;
    while i < |entries|
      invariant 0 <= i <= |entries|
      invariant AddIndexes(m, entries[..i], checked) == Ok((merged, perId))
    {
      assert entries[..i + 1][..i] == entries[..i];
      var e := entries[i];
      var columnNames := e.columnNames;
      if checked && columnNames in merged.sizes {
        if merged.sizes[columnNames] != e.estimatedSize {
          assert entries[..i + 1] == entries[..i] + [e];
          r := Err("AssertionError");
          PrefixFailure(m, entries, i + 1, checked);
          return;
        }
      }
      merged := merged.(keys := AddNew(merged.keys, columnNames), sizes := merged.sizes[columnNames := e.estimatedSize]);
      perId := perId[e.indexId := columnNames];
      i := i + 1;
    }
    assert entries[..i] == entries;
    r := Ok((merged, perId));
  }

  /** Once a prefix of the entries fails, all of them fail the same way. */
  lemma {:induction false} PrefixFailure(m: Merged, entries: seq<IndexEntry>, n: nat, checked: bool)
    requires n <= |entries| && AddIndexes(m, entries[..n], checked).Err?
    ensures AddIndexes(m, entries, checked) == AddIndexes(m, entries[..n], checked)
    decreases |entries| - n
  {
    if n < |entries| {
      assert entries[..n + 1][..n] == entries[..n];
      PrefixFailure(m, entries, n + 1, checked);
    } else {
      assert entries[..n] == entries;
    }
  }

  // ------------------------------------------------------------ combinations

  /** `frozenset([index_per_id[index_id] for index_id in index_ids])`; an unknown id is a KeyError. */
  function Resolve(perId: map<int, Key>, ids: seq<int>): Result<Combination> {
    if forall i :: i in ids ==> i in perId then Ok(set i | i in ids && i in perId :: perId[i]) else Err("KeyError")
  }

  /**
   * One entry of `index_combinations`: the combination is registered with
   * no costs (the first file resets its costs, the second keeps known ones)
   * and its id is mapped to it.
   */
  function CombinationStep(m: Merged, perComb: map<int, Combination>, perId: map<int, Key>, e: CombinationEntry,
                           first: bool): Result<(Merged, map<int, Combination>)> {
    var r := Resolve(perId, e.indexIds);
    if r.Err? then Err(r.error)
    else
      var c := r.value;
      var costs := if first || c !in m.costs then m.costs[c := map[]] else m.costs;
      Ok((m.(combinations := AddNew(m.combinations, c), costs := costs), perComb[e.combinationId := c]))
  }

  /** The loop over `index_combinations`, starting from an empty `combination_per_id`. */
  function AddCombinations(m: Merged, perId: map<int, Key>, entries: seq<CombinationEntry>, first: bool):
    Result<(Merged, map<int, Combination>)>
  {
    if |entries| == 0 then Ok((m, map[]))
    else
      var r := AddCombinations(m, perId, entries[..|entries| - 1], first);
      if r.Err? then r else CombinationStep(r.value.0, r.value.1, perId, entries[|entries| - 1], first)
  }

  method LoadCombinations(m: Merged, perId: map<int, Key>, entries: seq<CombinationEntry>, first: bool)
    returns (r: Result<(Merged, map<int, Combination>)>)
    ensures r == AddCombinations(m, perId, entries, first)
  {
    var merged := m;
    var perComb: map<int, Combination> := map[];
    var i := 0;
    while i < |entries|
      invariant 0 <= i <= |entries|
      invariant AddCombinations(m, perId, entries[..i], first) == Ok((merged, perComb))
    {
      assert entries[..i + 1][..i] == entries[..i];
      var e := entries[i];
      var indexSet := Resolve(perId, e.indexIds);
      if indexSet.Err? {
        r := Err(indexSet.error);
        CombinationPrefixFailure(m, perId, entries, i + 1, first);
        return;
      }
      if first || indexSet.value !in merged.costs {
        merged := merged.(costs := merged.costs[indexSet.value := map[]]);
      }
      merged := merged.(combinations := AddNew(merged.combinations, indexSet.value));
      perComb := perComb[e.combinationId := indexSet.value];
      i := i + 1;
    }
    assert entries[..i] == entries;
    r := Ok((merged, perComb));
  }

  lemma {:induction false} CombinationPrefixFailure(m: Merged, perId: map<int, Key>, entries: seq<CombinationEntry>,
                                                    n: nat, first: bool)
    requires n <= |entries| && AddCombinations(m, perId, entries[..n], first).Err?
    ensures AddCombinations(m, perId, entries, first) == AddCombinations(m, perId, entries[..n], first)
    decreases |entries| - n
  {
    if n < |entries| {
      assert entries[..n + 1][..n] == entries[..n];
      CombinationPrefixFailure(m, perId, entries, n + 1, first);
    } else {
      assert entries[..n] == entries;
    }
  }

  // ------------------------------------------------------------ query costs

  /**
   * One entry of `query_costs`: the cost is stored for its query under the
   * combination its id names (the second file asserts that a known cost is
   * equal); an unknown id is a KeyError.
   */
  function CostStep(m: Merged, perComb: map<int, Combination>, e: CostEntry, checked: bool): Result<Merged> {
    if e.combinationId !in perComb || perComb[e.combinationId] !in m.costs then Err("KeyError")
    else
      var c := perComb[e.combinationId];
      var row := m.costs[c];
      if checked && e.queryNumber in row && row[e.queryNumber] != e.costs then Err("AssertionError")
      else Ok(m.(costs := m.costs[c := row[e.queryNumber := e.costs]]))
  }

  /** The loop over `query_costs`. */
  function AddCosts(m: Merged, perComb: map<int, Combination>, entries: seq<CostEntry>, checked: bool): Result<Merged> {
    if |entries| == 0 then Ok(m)
    else
      var r := AddCosts(m, perComb, entries[..|entries| - 1], checked);
      if r.Err? then r else CostStep(r.value, perComb, entries[|entries| - 1], checked)
  }

  method LoadCosts(m: Merged, perComb: map<int, Combination>, entries: seq<CostEntry>, checked: bool)
    returns (r: Result<Merged>)
    ensures r == AddCosts(m, perComb, entries, checked)
  {
    var merged := m;
    var i := 0;
    while i < |entries|
      invariant 0 <= i <= |entries|
      invariant AddCosts(m, perComb, entries[..i], checked) == Ok(merged)
    {
      assert entries[..i + 1][..i] == entries[..i];
      var e := entries[i];
      if e.combinationId !in perComb || perComb[e.combinationId] !in merged.costs {
        r := Err("KeyError");
        CostPrefixFailure(m, perComb, entries, i + 1, checked);
        return;
      }
      var indexSet := perComb[e.combinationId];
      var row := merged.costs[indexSet];
      if checked && e.queryNumber in row && row[e.queryNumber] != e.costs {
        r := Err("AssertionError");
        CostPrefixFailure(m, perComb, entries, i + 1, checked);
        return;
      }
      merged := merged.(costs := merged.costs[indexSet := row[e.queryNumber := e.costs]]);
      i := i + 1;
    }
    assert entries[..i] == entries;
    r := Ok(merged);
  }

  lemma {:induction false} CostPrefixFailure(m: Merged, perComb: map<int, Combination>, entries: seq<CostEntry>,
                                             n: nat, checked: bool)
    requires n <= |entries| && AddCosts(m, perComb, entries[..n], checked).Err?
    ensures AddCosts(m, perComb, entries, checked) == AddCosts(m, perComb, entries[..n], checked)
    decreases |entries| - n
  {
    if n < |entries| {
      assert entries[..n + 1][..n] == entries[..n];
      CostPrefixFailure(m, perComb, entries, n + 1, checked);
    } else {
      assert entries[..n] == entries;
    }
  }

  // ------------------------------------------------------------ both files

  /** Reading one file: its indexes, then its combinations, then its costs. */
  function AddFile(m: Merged, data: IlpInput, first: bool): Result<Merged> {
    var ix := AddIndexes(m, data.indexSizes, !first);
    if ix.Err? then Err(ix.error)
    else
      var cb := AddCombinations(ix.value.0, ix.value.1, data.indexCombinations, first);
      if cb.Err? then Err(cb.error)
      else AddCosts(cb.value.0, cb.value.1, data.queryCosts, !first)
  }

  /** The first file is read into empty dictionaries; the second must list the same queries. */
  function Combined(file1: IlpInput, file2: IlpInput): Result<Merged> {
    var m1 := AddFile(Empty, file1, true);
    if m1.Err? then m1
    else if file2.queries != file1.queries then Err("AssertionError")
    else AddFile(m1.value, file2, false)
  }

  method ReadFile(m: Merged, data: IlpInput, first: bool) returns (r: Result<Merged>)
    ensures r == AddFile(m, data, first)
  {
    var ix := LoadIndexes(m, data.indexSizes, !first);
    if ix.Err? {
      return Err(ix.error);
    }
    var cb := LoadCombinations(ix.value.0, ix.value.1, data.indexCombinations, first);
    if cb.Err? {
      return Err(cb.error);
    }
    r := LoadCosts(cb.value.0, cb.value.1, data.queryCosts, !first);
  }

  // ------------------------------------------------------------ the merged input

  /** `sorted(index_sizes)`: the column-name tuples in ascending order. */
  function SortedKeys(m: Merged): seq<Key> {
    Sort(m.keys, StrSeqLe)
  }

  /** `index_sizes` of the output: ids 1, 2, ... over the sorted column names. */
  function SizeRows(sorted: seq<Key>, sizes: map<Key, int>): seq<IndexEntry>
    requires forall k :: k in sorted ==> k in sizes
  {
    seq(|sorted|, i requires 0 <= i < |sorted| => IndexEntry(i + 1, sizes[sorted[i]], sorted[i]))
  }

  /**
   * The new ids of a combination's indexes. The source lists them in the
   * iteration order of the frozenset, which is unspecified; here they are
   * in ascending order.
   */
  function IdsOf(sorted: seq<Key>, c: Combination): seq<int> {
    if |sorted| == 0 then []
    else IdsOf(sorted[..|sorted| - 1], c) + (if sorted[|sorted| - 1] in c then [|sorted|] else [])
  }

  /** `index_combinations` of the output: ids 0, 1, ... in the dictionary's order. */
  function CombinationRows(sorted: seq<Key>, combinations: seq<Combination>): seq<CombinationEntry> {
    seq(|combinations|, i requires 0 <= i < |combinations| => CombinationEntry(i, IdsOf(sorted, combinations[i])))
  }

  /** The cost rows of one query: one per combination (by position) that has a cost for it. */
  function QueryCostRows(q: int, combinations: seq<Combination>, costs: map<Combination, map<int, real>>): seq<CostEntry>
    requires forall c :: c in combinations ==> c in costs
  {
    if |combinations| == 0 then []
    else
      var n := |combinations| - 1;
      var c := combinations[n];
      QueryCostRows(q, combinations[..n], costs) + (if q in costs[c] then [CostEntry(q, n, costs[c][q])] else [])
  }

  /** `query_costs` of the output: query by query. */
  function CostRows(queries: seq<int>, combinations: seq<Combination>, costs: map<Combination, map<int, real>>):
    seq<CostEntry>
    requires forall c :: c in combinations ==> c in costs
  {
    if |queries| == 0 then []
    else CostRows(queries[..|queries| - 1], combinations, costs) + QueryCostRows(queries[|queries| - 1], combinations, costs)
  }

  lemma SortedKeysIndexed(m: Merged)
    requires WellFormed(m)
    ensures forall k :: k in SortedKeys(m) <==> k in m.sizes
  {
    var sorted := SortedKeys(m);
    forall k ensures k in sorted <==> k in m.sizes {
      assert k in sorted <==> k in multiset(sorted);
      assert k in m.keys <==> k in multiset(m.keys);
    }
  }

  /** `ilp_dict`. */
  function Output(m: Merged, queries: seq<int>): IlpDict
    requires WellFormed(m)
  {
    SortedKeysIndexed(m);
    var sorted := SortedKeys(m);
    IlpDict(|m.sizes|, |m.costs| - 1, queries, SizeRows(sorted, m.sizes), CombinationRows(sorted, m.combinations),
            CostRows(queries, m.combinations, m.costs))
  }

  method WriteOutput(m: Merged, queries: seq<int>) returns (d: IlpDict)
    requires WellFormed(m)
    ensures d == Output(m, queries)
  {
    SortedKeysIndexed(m);
    var sorted := Sort(m.keys, StrSeqLe);
    var sizeRows := WriteSizeRows(sorted, m.sizes);
    var combinationRows := WriteCombinationRows(sorted, m.combinations);
    var costRows := WriteCostRows(queries, m.combinations, m.costs);
    d := IlpDict(|m.sizes|, |m.costs| - 1, queries, sizeRows, combinationRows, costRows);
  }

  /** The loop writing `index_sizes`. */
  method WriteSizeRows(sorted: seq<Key>, sizes: map<Key, int>) returns (rows: seq<IndexEntry>)
    requires forall k :: k in sorted ==> k in sizes
    ensures rows == SizeRows(sorted, sizes)
  {
    rows := [];
    for i := 0 to |sorted|
      invariant |rows| == i
      invariant forall j :: 0 <= j < i ==> rows[j] == IndexEntry(j + 1, sizes[sorted[j]], sorted[j])
    {
      rows := rows + [IndexEntry(i + 1, sizes[sorted[i]], sorted[i])];
    }
  }

  /** The loop writing `index_combinations`. */
  method WriteCombinationRows(sorted: seq<Key>, combinations: seq<Combination>) returns (rows: seq<CombinationEntry>)
    ensures rows == CombinationRows(sorted, combinations)
  {
    rows := [];
    for i := 0 to |combinations|
      invariant |rows| == i
      invariant forall j :: 0 <= j < i ==> rows[j] == CombinationEntry(j, IdsOf(sorted, combinations[j]))
    {
      rows := rows + [CombinationEntry(i, IdsOf(sorted, combinations[i]))];
    }
  }

  /** The nested loop over the queries and the combinations. */
  method WriteCostRows(queries: seq<int>, combinations: seq<Combination>, costs: map<Combination, map<int, real>>)
    returns (rows: seq<CostEntry>)
    requires forall c :: c in combinations ==> c in costs
    ensures rows == CostRows(queries, combinations, costs)
  {
    rows := [];
    for qi := 0 to |queries|
      invariant rows == CostRows(queries[..qi], combinations, costs)
    {
      assert queries[..qi + 1][..qi] == queries[..qi];
      var q := queries[qi];
      var before := rows;
      for i := 0 to |combinations|
        invariant rows == before + QueryCostRows(q, combinations[..i], costs)
      {
        assert combinations[..i + 1][..i] == combinations[..i];
        var c := combinations[i];
        if q in costs[c] {
          rows := rows + [CostEntry(q, i, costs[c][q])];
        }
      }
      assert combinations[..|combinations|] == combinations;
    }
    assert queries[..|queries|] == queries;
  }

  /** The whole script: both files read and merged, then the merged input numbered afresh. */
  method CombineInputs(file1: IlpInput, file2: IlpInput) returns (r: Result<IlpDict>)
    ensures var c := Combined(file1, file2);
      c.Err? ==> r == Err(c.error)
    ensures var c := Combined(file1, file2);
      c.Ok? ==> WellFormed(c.value) && r == Ok(Output(c.value, file1.queries))
  {
    EmptyWellFormed();
    var m1 := ReadFile(Empty, file1, true);
    if m1.Err? {
      return Err(m1.error);
    }
    if file2.queries != file1.queries {
      return Err("AssertionError");
    }
    AddFileWellFormed(Empty, file1, true);
    var m := ReadFile(m1.value, file2, false);
    if m.Err? {
      return Err(m.error);
    }
    AddFileWellFormed(m1.value, file2, false);
    var d := WriteOutput(m.value, file1.queries);
    r := Ok(d);
  }

  // ------------------------------------------------------------ well-formedness

  lemma EmptyWellFormed()
    ensures WellFormed(Empty)
  {
  }

  /** Every file-local index id names an index with a size. */
  ghost predicate IdsIndexed(m: Merged, perId: map<int, Key>) {
    forall i :: i in perId ==> perId[i] in m.sizes
  }

  /** Every file-local combination id names a registered combination. */
  ghost predicate CombinationsKnown(m: Merged, perComb: map<int, Combination>) {
    forall i :: i in perComb ==> perComb[i] in m.costs
  }

  lemma {:induction false} AddIndexesWellFormed(m: Merged, entries: seq<IndexEntry>, checked: bool)
    requires WellFormed(m)
    ensures var r := AddIndexes(m, entries, checked);
      r.Ok? ==>
        WellFormed(r.value.0) && IdsIndexed(r.value.0, r.value.1) &&
        r.value.0.combinations == m.combinations && r.value.0.costs == m.costs && m.sizes.Keys <= r.value.0.sizes.Keys
  {
    if |entries| > 0 {
      AddIndexesWellFormed(m, entries[..|entries| - 1], checked);
    }
  }

  lemma {:induction false} AddCombinationsWellFormed(m: Merged, perId: map<int, Key>, entries: seq<CombinationEntry>,
                                                     first: bool)
    requires WellFormed(m) && IdsIndexed(m, perId)
    ensures var r := AddCombinations(m, perId, entries, first);
      r.Ok? ==>
        WellFormed(r.value.0) && CombinationsKnown(r.value.0, r.value.1) &&
        r.value.0.keys == m.keys && r.value.0.sizes == m.sizes
  {
    if |entries| > 0 {
      AddCombinationsWellFormed(m, perId, entries[..|entries| - 1], first);
      var r := AddCombinations(m, perId, entries[..|entries| - 1], first);
      if r.Ok? {
        CombinationStepWellFormed(r.value.0, r.value.1, perId, entries[|entries| - 1], first);
      }
    }
  }

  lemma CombinationStepWellFormed(m: Merged, perComb: map<int, Combination>, perId: map<int, Key>,
                                  e: CombinationEntry, first: bool)
    requires WellFormed(m) && IdsIndexed(m, perId) && CombinationsKnown(m, perComb)
    ensures var r := CombinationStep(m, perComb, perId, e, first);
      r.Ok? ==>
        WellFormed(r.value.0) && CombinationsKnown(r.value.0, r.value.1) &&
        r.value.0.keys == m.keys && r.value.0.sizes == m.sizes
  {
  }

  lemma {:induction false} AddCostsWellFormed(m: Merged, perComb: map<int, Combination>, entries: seq<CostEntry>,
                                              checked: bool)
    requires WellFormed(m)
    ensures var r := AddCosts(m, perComb, entries, checked);
      r.Ok? ==>
        WellFormed(r.value) && r.value.keys == m.keys && r.value.sizes == m.sizes &&
        r.value.combinations == m.combinations && r.value.costs.Keys == m.costs.Keys
  {
    if |entries| > 0 {
      AddCostsWellFormed(m, perComb, entries[..|entries| - 1], checked);
    }
  }

  lemma AddFileWellFormed(m: Merged, data: IlpInput, first: bool)
    requires WellFormed(m)
    ensures AddFile(m, data, first).Ok? ==> WellFormed(AddFile(m, data, first).value)
  {
    AddIndexesWellFormed(m, data.indexSizes, !first);
    var ix := AddIndexes(m, data.indexSizes, !first);
    if ix.Ok? {
      AddCombinationsWellFormed(ix.value.0, ix.value.1, data.indexCombinations, first);
      var cb := AddCombinations(ix.value.0, ix.value.1, data.indexCombinations, first);
      if cb.Ok? {
        AddCostsWellFormed(cb.value.0, cb.value.1, data.queryCosts, !first);
      }
    }
  }

  // ------------------------------------------------------------ properties: index sizes

  /**
   * The condition under which the second file's sizes are accepted: an
   * entry whose column names are already known, or appear earlier in the
   * file, carries the same size.
   */
  ghost predicate SizesAgree(sizes: map<Key, int>, entries: seq<IndexEntry>) {
    (forall k :: 0 <= k < |entries| && entries[k].columnNames in sizes ==>
      sizes[entries[k].columnNames] == entries[k].estimatedSize) &&
    (forall j, k :: 0 <= j < k < |entries| && entries[j].columnNames == entries[k].columnNames ==>
      entries[j].estimatedSize == entries[k].estimatedSize)
  }

  /** Some entry carries these column names. */
  ghost predicate Listed(entries: seq<IndexEntry>, key: Key) {
    exists j :: 0 <= j < |entries| && entries[j].columnNames == key
  }

  lemma ListedSnoc(entries: seq<IndexEntry>)
    requires |entries| > 0
    ensures forall key :: Listed(entries, key) <==>
      Listed(entries[..|entries| - 1], key) || key == entries[|entries| - 1].columnNames
  {
    var init := entries[..|entries| - 1];
    forall key | Listed(entries, key) && key != entries[|entries| - 1].columnNames ensures Listed(init, key) {
      var j :| 0 <= j < |entries| && entries[j].columnNames == key;
      assert init[j] == entries[j];
    }
    forall key | Listed(init, key) ensures Listed(entries, key) {
      var j :| 0 <= j < |init| && init[j].columnNames == key;
      assert entries[j] == init[j];
    }
  }

  /**
   * The second file, once accepted: the known sizes stay, every entry's
   * size is stored under its column names, nothing else is added, and
   * every file-local id is mapped.
   */
  lemma {:induction false} AddIndexesCheckedContents(m: Merged, entries: seq<IndexEntry>)
    ensures var r := AddIndexes(m, entries, true);
      r.Ok? ==>
        (forall key :: key in r.value.0.sizes <==> key in m.sizes || Listed(entries, key)) &&
        (forall key :: key in m.sizes ==> r.value.0.sizes[key] == m.sizes[key]) &&
        (forall k :: 0 <= k < |entries| ==>
          entries[k].columnNames in r.value.0.sizes && r.value.0.sizes[entries[k].columnNames] == entries[k].estimatedSize &&
          entries[k].indexId in r.value.1)
  {
    if |entries| > 0 {
      var init := entries[..|entries| - 1];
      AddIndexesCheckedContents(m, init);
      ListedSnoc(entries);
      assert forall k :: 0 <= k < |init| ==> init[k] == entries[k];
    }
  }

  /**
   * The second file: its index sizes are accepted exactly when they agree
   * with the known sizes and with each other, and fail with an
   * AssertionError otherwise.
   */
  lemma {:induction false} AddIndexesChecked(m: Merged, entries: seq<IndexEntry>)
    ensures AddIndexes(m, entries, true).Ok? <==> SizesAgree(m.sizes, entries)
    ensures AddIndexes(m, entries, true).Err? ==> AddIndexes(m, entries, true).error == "AssertionError"
  {
    if |entries| > 0 {
      var init := entries[..|entries| - 1];
      var e := entries[|entries| - 1];
      AddIndexesChecked(m, init);
      AddIndexesCheckedContents(m, init);
      ListedSnoc(entries);
      var r := AddIndexes(m, init, true);
      assert forall k :: 0 <= k < |init| ==> init[k] == entries[k];
      assert SizesAgree(m.sizes, entries) ==> SizesAgree(m.sizes, init);
      if r.Ok? {
        var sizes := r.value.0.sizes;
        var key := e.columnNames;
        if key in sizes && sizes[key] != e.estimatedSize {
          assert !SizesAgree(m.sizes, entries) by {
            if key in m.sizes {
              assert entries[|entries| - 1].columnNames in m.sizes;
            } else {
              var j :| 0 <= j < |init| && init[j].columnNames == key;
              assert entries[j].columnNames == entries[|entries| - 1].columnNames;
            }
          }
        } else {
          assert SizesAgree(m.sizes, entries) by {
            forall j, k | 0 <= j < k < |entries| && entries[j].columnNames == entries[k].columnNames
              ensures entries[j].estimatedSize == entries[k].estimatedSize
            {
              if k == |entries| - 1 {
                assert init[j] == entries[j];
              } else {
                assert init[j] == entries[j] && init[k] == entries[k];
              }
            }
            forall k | 0 <= k < |entries| && entries[k].columnNames in m.sizes
              ensures m.sizes[entries[k].columnNames] == entries[k].estimatedSize
            {
              if k < |init| {
                assert init[k] == entries[k];
              }
            }
          }
        }
      }
    }
  }

  /**
   * The first file: its index sizes are always accepted; every listed
   * column-name tuple gets a size, the one of the last entry listing it.
   */
  lemma {:induction false} AddIndexesFirst(m: Merged, entries: seq<IndexEntry>)
    ensures AddIndexes(m, entries, false).Ok?
    ensures var r := AddIndexes(m, entries, false);
      (forall key :: key in r.value.0.sizes <==> key in m.sizes || Listed(entries, key)) &&
      (forall k :: 0 <= k < |entries| && (forall j :: k < j < |entries| ==> entries[j].columnNames != entries[k].columnNames) ==>
        r.value.0.sizes[entries[k].columnNames] == entries[k].estimatedSize)
  {
    if |entries| > 0 {
      var init := entries[..|entries| - 1];
      AddIndexesFirst(m, init);
      ListedSnoc(entries);
      assert forall k :: 0 <= k < |init| ==> init[k] == entries[k];
    }
  }

  // ------------------------------------------------------------ properties: combinations

  /** Every index id of every entry is known in the file. */
  ghost predicate IdsKnown(perId: map<int, Key>, entries: seq<CombinationEntry>) {
    forall k, i :: 0 <= k < |entries| && i in entries[k].indexIds ==> i in perId
  }

  /** Some entry's index ids resolve to this set of indexes. */
  ghost predicate Registered(perId: map<int, Key>, entries: seq<CombinationEntry>, c: Combination) {
    exists k :: 0 <= k < |entries| && Resolve(perId, entries[k].indexIds) == Ok(c)
  }

  lemma RegisteredSnoc(perId: map<int, Key>, entries: seq<CombinationEntry>)
    requires |entries| > 0
    ensures forall c :: Registered(perId, entries, c) <==>
      Registered(perId, entries[..|entries| - 1], c) || Resolve(perId, entries[|entries| - 1].indexIds) == Ok(c)
  {
    var init := entries[..|entries| - 1];
    forall c | Registered(perId, entries, c) && Resolve(perId, entries[|entries| - 1].indexIds) != Ok(c)
      ensures Registered(perId, init, c)
    {
      var k :| 0 <= k < |entries| && Resolve(perId, entries[k].indexIds) == Ok(c);
      assert init[k] == entries[k];
    }
    forall c | Registered(perId, init, c) ensures Registered(perId, entries, c) {
      var k :| 0 <= k < |init| && Resolve(perId, init[k].indexIds) == Ok(c);
      assert entries[k] == init[k];
    }
  }

  /** The combinations are read without a KeyError exactly when every index id is known. */
  lemma {:induction false} AddCombinationsFails(m: Merged, perId: map<int, Key>, entries: seq<CombinationEntry>,
                                                first: bool)
    ensures AddCombinations(m, perId, entries, first).Ok? <==> IdsKnown(perId, entries)
    ensures AddCombinations(m, perId, entries, first).Err? ==> AddCombinations(m, perId, entries, first).error == "KeyError"
  {
    if |entries| > 0 {
      var init := entries[..|entries| - 1];
      AddCombinationsFails(m, perId, init, first);
      assert forall k :: 0 <= k < |init| ==> init[k] == entries[k];
      if IdsKnown(perId, init) && !IdsKnown(perId, entries) {
        var k, i :| 0 <= k < |entries| && i in entries[k].indexIds && i !in perId;
        assert k == |entries| - 1;
      }
    }
  }

  /**
   * A combination is identified by its set of indexes, whatever the ids
   * that name it: after reading, the known combinations are the earlier
   * ones followed by the newly resolved sets, each once, and every entry's
   * id is mapped.
   */
  lemma AddCombinationsOrder(m: Merged, perId: map<int, Key>, entries: seq<CombinationEntry>, first: bool)
    ensures var r := AddCombinations(m, perId, entries, first);
      r.Ok? ==>
        (forall c :: c in r.value.0.combinations <==> c in m.combinations || Registered(perId, entries, c)) &&
        (Distinct(m.combinations) ==> Distinct(r.value.0.combinations)) &&
        |m.combinations| <= |r.value.0.combinations| && r.value.0.combinations[..|m.combinations|] == m.combinations &&
        (forall k :: 0 <= k < |entries| ==> entries[k].combinationId in r.value.1)
  {
    AddCombinationsMembers(m, perId, entries, first);
    AddCombinationsPrefix(m, perId, entries, first);
  }

  /** The known combinations after reading: the earlier ones and the registered ones. */
  lemma {:induction false} AddCombinationsMembers(m: Merged, perId: map<int, Key>, entries: seq<CombinationEntry>,
                                                  first: bool)
    ensures var r := AddCombinations(m, perId, entries, first);
      r.Ok? ==> forall c :: c in r.value.0.combinations <==> c in m.combinations || Registered(perId, entries, c)
  {
    if |entries| > 0 {
      var init := entries[..|entries| - 1];
      AddCombinationsMembers(m, perId, init, first);
      RegisteredSnoc(perId, entries);
      var r := AddCombinations(m, perId, init, first);
      if r.Ok? {
        CombinationStepOrder(r.value.0, r.value.1, perId, entries[|entries| - 1], first, 0);
      }
    }
  }

  /** The earlier combinations stay in front, each once, and every read id is mapped. */
  lemma {:induction false} AddCombinationsPrefix(m: Merged, perId: map<int, Key>, entries: seq<CombinationEntry>,
                                                 first: bool)
    ensures var r := AddCombinations(m, perId, entries, first);
      r.Ok? ==>
        (Distinct(m.combinations) ==> Distinct(r.value.0.combinations)) &&
        |m.combinations| <= |r.value.0.combinations| && r.value.0.combinations[..|m.combinations|] == m.combinations &&
        (forall k :: 0 <= k < |entries| ==> entries[k].combinationId in r.value.1)
  {
    if |entries| > 0 {
      var init := entries[..|entries| - 1];
      AddCombinationsPrefix(m, perId, init, first);
      assert forall k :: 0 <= k < |init| ==> init[k] == entries[k];
      var r := AddCombinations(m, perId, init, first);
      if r.Ok? {
        CombinationStepOrder(r.value.0, r.value.1, perId, entries[|entries| - 1], first, |m.combinations|);
      }
    }
  }

  lemma CombinationStepOrder(m: Merged, perComb: map<int, Combination>, perId: map<int, Key>,
                             e: CombinationEntry, first: bool, n: nat)
    requires n <= |m.combinations|
    ensures var r := CombinationStep(m, perComb, perId, e, first);
      r.Ok? ==>
        var cs := r.value.0.combinations;
        (forall c :: c in cs <==> c in m.combinations || Resolve(perId, e.indexIds) == Ok(c)) &&
        (Distinct(m.combinations) ==> Distinct(cs)) &&
        n <= |cs| && cs[..n] == m.combinations[..n] &&
        e.combinationId in r.value.1 && (forall i :: i in perComb ==> i in r.value.1)
  {
    var res := Resolve(perId, e.indexIds);
    if res.Ok? && res.value !in m.combinations {
      assert (m.combinations + [res.value])[..n] == m.combinations[..n];
    }
  }

  /**
   * Every registered combination has a cost row: a new one starts empty,
   * the first file also empties a repeated one, and the second file keeps
   * the costs it knows.
   */
  lemma {:induction false} AddCombinationsRows(m: Merged, perId: map<int, Key>, entries: seq<CombinationEntry>,
                                               first: bool)
    ensures var r := AddCombinations(m, perId, entries, first);
      r.Ok? ==>
        (forall c :: c in r.value.0.costs <==> c in m.costs || Registered(perId, entries, c)) &&
        (forall c :: c in r.value.0.costs ==>
          r.value.0.costs[c] == if c in m.costs && !(first && Registered(perId, entries, c)) then m.costs[c] else map[])
  {
    if |entries| > 0 {
      var init := entries[..|entries| - 1];
      AddCombinationsRows(m, perId, init, first);
      RegisteredSnoc(perId, entries);
    }
  }

  // ------------------------------------------------------------ properties: query costs

  /** Every entry names a known combination id of a registered combination. */
  ghost predicate CombinationIdsKnown(m: Merged, perComb: map<int, Combination>, entries: seq<CostEntry>) {
    forall k :: 0 <= k < |entries| ==> entries[k].combinationId in perComb && perComb[entries[k].combinationId] in m.costs
  }

  /** The combination an entry's id names, or the empty one for an unknown id. */
  function CombinationOf(perComb: map<int, Combination>, e: CostEntry): Combination {
    if e.combinationId in perComb then perComb[e.combinationId] else {}
  }

  /**
   * The condition under which the second file's costs are accepted: a cost
   * for a (combination, query) pair that is known, or appears earlier in
   * the file, is equal.
   */
  ghost predicate CostsAgree(m: Merged, perComb: map<int, Combination>, entries: seq<CostEntry>) {
    (forall k ::
      (0 <= k < |entries| && CombinationOf(perComb, entries[k]) in m.costs &&
       entries[k].queryNumber in m.costs[CombinationOf(perComb, entries[k])]) ==>
      m.costs[CombinationOf(perComb, entries[k])][entries[k].queryNumber] == entries[k].costs) &&
    (forall j, k ::
      (0 <= j < k < |entries| && CombinationOf(perComb, entries[j]) == CombinationOf(perComb, entries[k]) &&
       entries[j].queryNumber == entries[k].queryNumber) ==>
      entries[j].costs == entries[k].costs)
  }

  /** Some entry gives a cost for this (combination, query) pair. */
  ghost predicate CostListed(perComb: map<int, Combination>, entries: seq<CostEntry>, c: Combination, q: int) {
    exists j :: 0 <= j < |entries| && entries[j].combinationId in perComb && CombinationOf(perComb, entries[j]) == c &&
      entries[j].queryNumber == q
  }

  lemma CostListedSnoc(perComb: map<int, Combination>, entries: seq<CostEntry>)
    requires |entries| > 0
    ensures var e := entries[|entries| - 1];
      forall c, q :: CostListed(perComb, entries, c, q) <==>
        CostListed(perComb, entries[..|entries| - 1], c, q) ||
        (e.combinationId in perComb && CombinationOf(perComb, e) == c && e.queryNumber == q)
  {
    var init := entries[..|entries| - 1];
    forall c, q | CostListed(perComb, entries, c, q) ensures CostListed(perComb, init, c, q) ||
      (entries[|entries| - 1].combinationId in perComb && CombinationOf(perComb, entries[|entries| - 1]) == c &&
       entries[|entries| - 1].queryNumber == q)
    {
      var j :| 0 <= j < |entries| && entries[j].combinationId in perComb && CombinationOf(perComb, entries[j]) == c &&
        entries[j].queryNumber == q;
      if j < |init| {
        assert init[j] == entries[j];
      }
    }
    forall c, q | CostListed(perComb, init, c, q) ensures CostListed(perComb, entries, c, q) {
      var j :| 0 <= j < |init| && init[j].combinationId in perComb && CombinationOf(perComb, init[j]) == c &&
        init[j].queryNumber == q;
      assert entries[j] == init[j];
    }
  }

  /**
   * The second file, once accepted: no combination is added, the known
   * costs stay, every entry's cost is stored for its pair, and no other
   * pair gets a cost.
   */
  lemma {:induction false} AddCostsCheckedContents(m: Merged, perComb: map<int, Combination>, entries: seq<CostEntry>)
    ensures var r := AddCosts(m, perComb, entries, true);
      r.Ok? ==>
        r.value.costs.Keys == m.costs.Keys &&
        (forall c, q :: c in m.costs && q in m.costs[c] ==> q in r.value.costs[c] && r.value.costs[c][q] == m.costs[c][q]) &&
        (forall k :: 0 <= k < |entries| ==>
          CombinationOf(perComb, entries[k]) in r.value.costs &&
          entries[k].queryNumber in r.value.costs[CombinationOf(perComb, entries[k])] &&
          r.value.costs[CombinationOf(perComb, entries[k])][entries[k].queryNumber] == entries[k].costs) &&
        (forall c, q :: c in r.value.costs && q in r.value.costs[c] ==> q in m.costs[c] || CostListed(perComb, entries, c, q))
  {
    if |entries| > 0 {
      var init := entries[..|entries| - 1];
      AddCostsCheckedContents(m, perComb, init);
      CostListedSnoc(perComb, entries);
      assert forall k :: 0 <= k < |init| ==> init[k] == entries[k];
    }
  }

  /**
   * The second file: its costs are read exactly when every combination id
   * is known and the costs agree with the known ones and with each other;
   * with known ids the only failure is an AssertionError.
   */
  lemma {:induction false} AddCostsChecked(m: Merged, perComb: map<int, Combination>, entries: seq<CostEntry>)
    ensures AddCosts(m, perComb, entries, true).Ok? <==>
      CombinationIdsKnown(m, perComb, entries) && CostsAgree(m, perComb, entries)
    ensures var r := AddCosts(m, perComb, entries, true);
      r.Err? ==> r.error == "KeyError" || r.error == "AssertionError"
    ensures var r := AddCosts(m, perComb, entries, true);
      r.Err? && CombinationIdsKnown(m, perComb, entries) ==> r.error == "AssertionError"
  {
    if |entries| > 0 {
      var init := entries[..|entries| - 1];
      var e := entries[|entries| - 1];
      AddCostsChecked(m, perComb, init);
      AddCostsCheckedContents(m, perComb, init);
      AddCostsWellFormedKeys(m, perComb, init, true);
      CostListedSnoc(perComb, entries);
      assert forall k :: 0 <= k < |init| ==> init[k] == entries[k];
      assert CombinationIdsKnown(m, perComb, entries) ==> CombinationIdsKnown(m, perComb, init);
      assert CostsAgree(m, perComb, entries) ==> CostsAgree(m, perComb, init);
      var r := AddCosts(m, perComb, init, true);
      if r.Ok? && e.combinationId in perComb && perComb[e.combinationId] in r.value.costs {
        var c := perComb[e.combinationId];
        var row := r.value.costs[c];
        if e.queryNumber in row && row[e.queryNumber] != e.costs {
          assert !CostsAgree(m, perComb, entries) by {
            if e.queryNumber in m.costs[c] {
              assert entries[|entries| - 1] == e;
            } else {
              var j :| 0 <= j < |init| && init[j].combinationId in perComb && CombinationOf(perComb, init[j]) == c &&
                init[j].queryNumber == e.queryNumber;
              assert entries[j] == init[j];
              assert entries[|entries| - 1] == e;
            }
          }
        } else {
          assert CostsAgree(m, perComb, entries) by {
            forall j, k | 0 <= j < k < |entries| && CombinationOf(perComb, entries[j]) == CombinationOf(perComb, entries[k]) &&
              entries[j].queryNumber == entries[k].queryNumber
              ensures entries[j].costs == entries[k].costs
            {
              if k == |entries| - 1 {
                assert init[j] == entries[j];
              } else {
                assert init[j] == entries[j] && init[k] == entries[k];
              }
            }
            forall k | 0 <= k < |entries| && CombinationOf(perComb, entries[k]) in m.costs &&
              entries[k].queryNumber in m.costs[CombinationOf(perComb, entries[k])]
              ensures m.costs[CombinationOf(perComb, entries[k])][entries[k].queryNumber] == entries[k].costs
            {
              if k < |init| {
                assert init[k] == entries[k];
              }
            }
          }
        }
      } else if r.Ok? {
        assert !CombinationIdsKnown(m, perComb, entries) by {
          assert entries[|entries| - 1] == e;
        }
      }
    }
  }

  lemma {:induction false} AddCostsWellFormedKeys(m: Merged, perComb: map<int, Combination>, entries: seq<CostEntry>,
                                                  checked: bool)
    ensures var r := AddCosts(m, perComb, entries, checked);
      r.Ok? ==> r.value.costs.Keys == m.costs.Keys
  {
    if |entries| > 0 {
      AddCostsWellFormedKeys(m, perComb, entries[..|entries| - 1], checked);
    }
  }

  /**
   * The first file: its costs are read exactly when every combination id
   * is known, and a pair's cost is that of the last entry giving it.
   */
  lemma {:induction false} AddCostsFirst(m: Merged, perComb: map<int, Combination>, entries: seq<CostEntry>)
    ensures AddCosts(m, perComb, entries, false).Ok? <==> CombinationIdsKnown(m, perComb, entries)
    ensures var r := AddCosts(m, perComb, entries, false);
      r.Ok? ==>
        (forall k :: 0 <= k < |entries| ==>
          CombinationOf(perComb, entries[k]) in r.value.costs &&
          entries[k].queryNumber in r.value.costs[CombinationOf(perComb, entries[k])]) &&
        (forall k ::
          (0 <= k < |entries| &&
           forall j :: k < j < |entries| ==>
             CombinationOf(perComb, entries[j]) != CombinationOf(perComb, entries[k]) ||
             entries[j].queryNumber != entries[k].queryNumber) ==>
          r.value.costs[CombinationOf(perComb, entries[k])][entries[k].queryNumber] == entries[k].costs)
  {
    if |entries| > 0 {
      var init := entries[..|entries| - 1];
      AddCostsFirst(m, perComb, init);
      AddCostsWellFormedKeys(m, perComb, init, false);
      assert forall k :: 0 <= k < |init| ==> init[k] == entries[k];
      var r := AddCosts(m, perComb, init, false);
      if r.Ok? && !CombinationIdsKnown(m, perComb, entries) {
        assert entries[|entries| - 1] == entries[|entries| - 1];
      }
    }
  }

  // ------------------------------------------------------------ properties: the merged input

  /** Both inputs must list the same queries; the merged dictionaries are well formed. */
  lemma CombinedRequiresSameQueries(file1: IlpInput, file2: IlpInput)
    ensures AddFile(Empty, file1, true).Ok? && file2.queries != file1.queries ==>
      Combined(file1, file2) == Err("AssertionError")
    ensures Combined(file1, file2).Ok? ==> file2.queries == file1.queries && WellFormed(Combined(file1, file2).value)
  {
    EmptyWellFormed();
    AddFileWellFormed(Empty, file1, true);
    var m1 := AddFile(Empty, file1, true);
    if m1.Ok? {
      AddFileWellFormed(m1.value, file2, false);
    }
  }

  /**
   * The output numbers the indexes 1, 2, ... over their column names in
   * ascending order, each merged index once with its size, and
   * `number_of_indexes` counts them.
   */
  lemma OutputIndexes(m: Merged, queries: seq<int>)
    requires WellFormed(m)
    ensures var d := Output(m, queries);
      d.numberOfIndexes == |d.indexSizes| == |m.keys| &&
      (forall i :: 0 <= i < |d.indexSizes| ==>
        d.indexSizes[i].indexId == i + 1 && d.indexSizes[i].columnNames in m.sizes &&
        d.indexSizes[i].estimatedSize == m.sizes[d.indexSizes[i].columnNames]) &&
      (forall i :: 0 <= i < |d.indexSizes| - 1 ==> StrSeqLe(d.indexSizes[i].columnNames, d.indexSizes[i + 1].columnNames)) &&
      (forall i, j :: 0 <= i < j < |d.indexSizes| ==> d.indexSizes[i].columnNames != d.indexSizes[j].columnNames) &&
      (forall key :: key in m.sizes ==> exists i :: 0 <= i < |d.indexSizes| && d.indexSizes[i].columnNames == key)
  {
    var sorted := SortedKeys(m);
    SortedKeysIndexed(m);
    StrSeqLeIsTotal();
    SortSorted(m.keys, StrSeqLe);
    DistinctPermutation(m.keys, sorted);
    DistinctCard(m.keys);
    DistinctCard(sorted);
    assert SetOf(sorted) == m.sizes.Keys;
    SizeRowsMeaning(sorted, m.sizes);
  }

  /** The `index_sizes` rows over sorted, repetition-free keys. */
  lemma SizeRowsMeaning(sorted: seq<Key>, sizes: map<Key, int>)
    requires SortedBy(sorted, StrSeqLe) && Distinct(sorted) && forall k :: k in sorted <==> k in sizes
    ensures var rows := SizeRows(sorted, sizes);
      |rows| == |sorted| &&
      (forall i :: 0 <= i < |rows| ==>
        rows[i].indexId == i + 1 && rows[i].columnNames in sizes &&
        rows[i].estimatedSize == sizes[rows[i].columnNames]) &&
      (forall i :: 0 <= i < |rows| - 1 ==> StrSeqLe(rows[i].columnNames, rows[i + 1].columnNames)) &&
      (forall i, j :: 0 <= i < j < |rows| ==> rows[i].columnNames != rows[j].columnNames) &&
      (forall key :: key in sizes ==> exists i :: 0 <= i < |rows| && rows[i].columnNames == key)
  {
    var rows := SizeRows(sorted, sizes);
    assert forall i :: 0 <= i < |rows| ==> rows[i].columnNames == sorted[i];
    forall key | key in sizes ensures exists i :: 0 <= i < |rows| && rows[i].columnNames == key {
      var i :| 0 <= i < |sorted| && sorted[i] == key;
      assert rows[i].columnNames == key;
    }
  }

  /** The new ids of a combination are ascending, and are those of its indexes. */
  lemma {:induction false} IdsOfMeaning(sorted: seq<Key>, c: Combination)
    ensures forall id :: id in IdsOf(sorted, c) <==> 1 <= id <= |sorted| && sorted[id - 1] in c
    ensures forall i, j :: 0 <= i < j < |IdsOf(sorted, c)| ==> IdsOf(sorted, c)[i] < IdsOf(sorted, c)[j]
  {
    if |sorted| > 0 {
      var init := sorted[..|sorted| - 1];
      IdsOfMeaning(init, c);
      assert forall k :: 0 <= k < |init| ==> init[k] == sorted[k];
      var prev := IdsOf(init, c);
      forall k | 0 <= k < |prev| ensures prev[k] <= |init| {
        assert prev[k] in IdsOf(init, c);
      }
    }
  }

  /**
   * The output numbers the combinations 0, 1, ... in the merged order;
   * mapping a combination's ids back through the output's index list gives
   * exactly its set of indexes; and `number_of_index_combinations` is the
   * number of distinct combinations less one (the empty configuration).
   */
  lemma OutputCombinations(m: Merged, queries: seq<int>, i: nat)
    requires WellFormed(m)
    ensures var d := Output(m, queries);
      d.numberOfIndexCombinations == |d.indexCombinations| - 1 == |m.combinations| - 1
    ensures var d := Output(m, queries);
      i < |d.indexCombinations| ==>
        var ids := d.indexCombinations[i].indexIds;
        d.indexCombinations[i].combinationId == i &&
        (forall id :: id in ids ==> 1 <= id <= |d.indexSizes|) &&
        (set id | id in ids && 1 <= id <= |d.indexSizes| :: d.indexSizes[id - 1].columnNames) == m.combinations[i]
  {
    DistinctCard(m.combinations);
    var d := Output(m, queries);
    var sorted := SortedKeys(m);
    SortedKeysIndexed(m);
    if i < |d.indexCombinations| {
      var c := m.combinations[i];
      var ids := d.indexCombinations[i].indexIds;
      IdsOfMeaning(sorted, c);
      assert ids == IdsOf(sorted, c);
      assert forall j :: 0 <= j < |d.indexSizes| ==> d.indexSizes[j].columnNames == sorted[j];
      var back := set id | id in ids && 1 <= id <= |d.indexSizes| :: d.indexSizes[id - 1].columnNames;
      forall key | key in c ensures key in back {
        assert c in m.costs;
        var j :| 0 <= j < |sorted| && sorted[j] == key;
        assert j + 1 in ids;
      }
    }
  }

  /** One query's cost rows are the combinations, by position, that have a cost for it. */
  lemma {:induction false} QueryCostRowsMeaning(q: int, combinations: seq<Combination>,
                                                costs: map<Combination, map<int, real>>, e: CostEntry)
    requires forall c :: c in combinations ==> c in costs
    ensures e in QueryCostRows(q, combinations, costs) <==>
      e.queryNumber == q && 0 <= e.combinationId < |combinations| && q in costs[combinations[e.combinationId]] &&
      e.costs == costs[combinations[e.combinationId]][q]
  {
    if |combinations| > 0 {
      var init := combinations[..|combinations| - 1];
      QueryCostRowsMeaning(q, init, costs, e);
      if 0 <= e.combinationId < |init| {
        assert init[e.combinationId] == combinations[e.combinationId];
      }
    }
  }

  lemma {:induction false} CostRowsMeaning(queries: seq<int>, combinations: seq<Combination>,
                                           costs: map<Combination, map<int, real>>, e: CostEntry)
    requires forall c :: c in combinations ==> c in costs
    ensures e in CostRows(queries, combinations, costs) <==>
      e.queryNumber in queries && 0 <= e.combinationId < |combinations| &&
      e.queryNumber in costs[combinations[e.combinationId]] && e.costs == costs[combinations[e.combinationId]][e.queryNumber]
  {
    if |queries| > 0 {
      var init := queries[..|queries| - 1];
      CostRowsMeaning(init, combinations, costs, e);
      QueryCostRowsMeaning(queries[|queries| - 1], combinations, costs, e);
      assert queries == init + [queries[|queries| - 1]];
    }
  }

  /**
   * `query_costs` holds a row exactly for each query of the inputs and each
   * merged combination with a cost for it, carrying that cost.
   */
  lemma OutputCosts(m: Merged, queries: seq<int>, e: CostEntry)
    requires WellFormed(m)
    ensures e in Output(m, queries).queryCosts <==>
      e.queryNumber in queries && 0 <= e.combinationId < |m.combinations| &&
      e.queryNumber in m.costs[m.combinations[e.combinationId]] &&
      e.costs == m.costs[m.combinations[e.combinationId]][e.queryNumber]
  {
    CostRowsMeaning(queries, m.combinations, m.costs, e);
  }
}
