/**
 * statsitics_tools/parse_ampl_benchmark.py: reading the AMPL solver's
 * answer to a CoPhy input back. The CoPhy input JSON (index sizes, index
 * combinations, query costs) becomes three dictionaries keyed by the ids'
 * decimal text; the solve file is scanned line by line for the objective,
 * the selected indexes of the `x` section, the per-query combinations of
 * the `z` section and the solver time.
 *
 * Opening and decoding the files is not part of this model: the JSON is
 * given as its entries, the solve file as the lines `readline` returns,
 * and `float` as a parameter (`None` where Python raises a ValueError).
 */
module AmplBenchmark {
  import opened Common

  // ------------------------------------------------------------ file names

  /** The entries of a CoPhy run's configuration that name its files, as the text the f-strings insert. */
  datatype RunConfig = RunConfig(benchmarkName: string, maxIndexWidth: string, maxIndexesPerQuery: string,
                                 outputFolder: string)

  /** The name of the CoPhy input the run wrote, without folder and extension. */
  function InputName(config: RunConfig): string {
    config.benchmarkName + "_cophy_input__width" + config.maxIndexWidth + "__per_query" + config.maxIndexesPerQuery
  }

  /** `make_solve_path`: the solver's output for the run's input at `budget`. */
  function MakeSolvePath(config: RunConfig, budget: int): string {
    "solves/" + config.benchmarkName + "_cophy_input__width" + config.maxIndexWidth + "__per_query"
    + config.maxIndexesPerQuery + ".txt-" + IntToString(budget) + "-out.solve"
  }

  /** `make_json_path`: the JSON the run wrote next to its input. */
  function MakeJsonPath(config: RunConfig): string {
    config.outputFolder + "/" + config.benchmarkName + "_cophy_input__width" + config.maxIndexWidth
    + "__per_query" + config.maxIndexesPerQuery + ".json"
  }

  /**
   * Both paths name the same CoPhy input: the solve path is `solves/`, the
   * input's name, `.txt-`, the budget and `-out.solve`; the JSON path is
   * the output folder, `/`, the input's name and `.json`.
   */
  lemma PathsNameTheInput(config: RunConfig, budget: int)
    ensures var name := InputName(config);
      MakeSolvePath(config, budget) == "solves/" + name + ".txt-" + IntToString(budget) + "-out.solve" &&
      MakeJsonPath(config) == config.outputFolder + "/" + name + ".json"
  {
  }

  /** The budget can be read back from the solve path: its text sits between the fixed parts. */
  lemma {:induction false} SolvePathBudget(config: RunConfig, budget: int)
    ensures ParseInt(DropEnds(MakeSolvePath(config, budget), 12 + |InputName(config)|, 10)) == Ok(budget)
  {
    var head := "solves/" + InputName(config) + ".txt-";
    var digits := IntToString(budget);
    var path := MakeSolvePath(config, budget);
    PathsNameTheInput(config, budget);
    assert path == head + digits + "-out.solve";
    assert |head| == 12 + |InputName(config)|;
    assert path[|head|..|path| - 10] == digits;
    ParseIntOfInt(budget);
  }

  /** Different budgets give different solve files. */
  lemma SolvePathsDiffer(config: RunConfig, budget: int, other: int)
    requires budget != other
    ensures MakeSolvePath(config, budget) != MakeSolvePath(config, other)
  {
    SolvePathBudget(config, budget);
    SolvePathBudget(config, other);
  }

  // ------------------------------------------------------------ the input JSON

  /** An entry of `index_sizes`: the index's id and its column names. */
  datatype IndexSize = IndexSize(indexId: int, columnNames: seq<string>)

  /** An entry of `index_combinations`: the combination's id and its index ids, blank-separated. */
  datatype Combination = Combination(combinationId: int, indexIds: string)

  /** An entry of `query_costs`: a query's cost under a combination. */
  datatype QueryCost = QueryCost(queryNumber: int, combinationId: int, costs: real)

  /** The CoPhy input JSON. */
  datatype CophyInput = CophyInput(indexSizes: seq<IndexSize>, indexCombinations: seq<Combination>,
                                   queryCosts: seq<QueryCost>)

  /** The `{"Cost": c}` record a query's cost is wrapped in. */
  datatype CostRecord = CostRecord(cost: real)

  /**
   * A dictionary filled from `xs` in order, each entry under its key: a
   * later entry replaces an earlier one with the same key.
   */
  function Keyed<T, K(==), V>(xs: seq<T>, key: T -> K, value: T -> V): map<K, V> {
    if |xs| == 0 then map[]
    else Keyed(xs[..|xs| - 1], key, value)[key(xs[|xs| - 1]) := value(xs[|xs| - 1])]
  }

  /** No entry after the `i`-th has its key. */
  predicate LastWithKey<T, K(==)>(xs: seq<T>, key: T -> K, i: nat)
    requires i < |xs|
  {
    forall j :: i < j < |xs| ==> key(xs[j]) != key(xs[i])
  }

  /** An entry of `xs` has the key `k`. */
  predicate HasKey<T, K(==)>(xs: seq<T>, key: T -> K, k: K) {
    exists i :: 0 <= i < |xs| && key(xs[i]) == k
  }

  /** The keys of the dictionary are exactly the entries' keys. */
  lemma {:induction false} KeyedKeys<T, K, V>(xs: seq<T>, key: T -> K, value: T -> V)
    ensures forall k :: k in Keyed(xs, key, value) <==> HasKey(xs, key, k)
  {
    if |xs| > 0 {
      var init := xs[..|xs| - 1];
      KeyedKeys(init, key, value);
      forall k ensures k in Keyed(xs, key, value) <==> HasKey(xs, key, k) {
        if HasKey(init, key, k) {
          var i :| 0 <= i < |init| && key(init[i]) == k;
          assert key(xs[i]) == k;
        }
        if HasKey(xs, key, k) && k != key(xs[|xs| - 1]) {
          var i :| 0 <= i < |xs| && key(xs[i]) == k;
          assert key(init[i]) == k;
        }
      }
    }
  }

  /** An entry no later entry shares its key with is the one stored under it. */
  lemma {:induction false} KeyedLast<T, K, V>(xs: seq<T>, key: T -> K, value: T -> V, i: nat)
    requires i < |xs| && LastWithKey(xs, key, i)
    ensures key(xs[i]) in Keyed(xs, key, value) && Keyed(xs, key, value)[key(xs[i])] == value(xs[i])
  {
    if i < |xs| - 1 {
      var init := xs[..|xs| - 1];
      assert LastWithKey(init, key, i) by {
        forall j | i < j < |init| ensures key(init[j]) != key(init[i]) {
          assert init[j] == xs[j];
        }
      }
      KeyedLast(init, key, value, i);
      assert key(xs[|xs| - 1]) != key(xs[i]);
    }
  }

  function IndexKey(e: IndexSize): string { IntToString(e.indexId) }
  function IndexValue(e: IndexSize): IndexSize { e }

  /** What `transform_index_list` builds: each entry under the text of its id. */
  function IndexDict(indexes: seq<IndexSize>): map<string, IndexSize> {
    Keyed(indexes, IndexKey, IndexValue)
  }

  /** `transform_index_list`. */
  method TransformIndexList(indexes: seq<IndexSize>) returns (indexDict: map<string, IndexSize>)
    ensures indexDict == IndexDict(indexes)
  {
    indexDict := map[];
    for i := 0 to |indexes|
      invariant indexDict == IndexDict(indexes[..i])
    {
      assert indexes[..i + 1][..i] == indexes[..i];
      indexDict := indexDict[IntToString(indexes[i].indexId) := indexes[i]];
    }
    assert indexes[..|indexes|] == indexes;
  }

  /**
   * `transform_index_list` keys every entry by the text of its id, and the
   * last entry with an id is the one kept under it.
   */
  lemma TransformIndexListMeaning(indexes: seq<IndexSize>)
    ensures forall k :: k in IndexDict(indexes) <==> HasKey(indexes, IndexKey, k)
    ensures forall i :: 0 <= i < |indexes| && (forall j :: i < j < |indexes| ==> indexes[j].indexId != indexes[i].indexId) ==>
      IntToString(indexes[i].indexId) in IndexDict(indexes) && IndexDict(indexes)[IntToString(indexes[i].indexId)] == indexes[i]
  {
    KeyedKeys(indexes, IndexKey, IndexValue);
    forall i | 0 <= i < |indexes| && (forall j :: i < j < |indexes| ==> indexes[j].indexId != indexes[i].indexId)
      ensures IntToString(indexes[i].indexId) in IndexDict(indexes) && IndexDict(indexes)[IntToString(indexes[i].indexId)] == indexes[i]
    {
      forall j | i < j < |indexes| ensures IndexKey(indexes[j]) != IndexKey(indexes[i]) {
        IntToStringInjective(indexes[j].indexId, indexes[i].indexId);
      }
      KeyedLast(indexes, IndexKey, IndexValue, i);
    }
  }

  function CombinationKey(c: Combination): string { IntToString(c.combinationId) }
  function CombinationValue(c: Combination): seq<string> { Words(c.indexIds) }

  /** What `transform_combination_list` builds: each combination's index ids under the text of its id. */
  function CombinationDict(combinations: seq<Combination>): map<string, seq<string>> {
    Keyed(combinations, CombinationKey, CombinationValue)
  }

  /** `transform_combination_list`. */
  method TransformCombinationList(combinations: seq<Combination>) returns (combinationsDict: map<string, seq<string>>)
    ensures combinationsDict == CombinationDict(combinations)
  {
    combinationsDict := map[];
    for i := 0 to |combinations|
      invariant combinationsDict == CombinationDict(combinations[..i])
    {
      assert combinations[..i + 1][..i] == combinations[..i];
      combinationsDict := combinationsDict[IntToString(combinations[i].combinationId) := Words(combinations[i].indexIds)];
    }
    assert combinations[..|combinations|] == combinations;
  }

  /**
   * `transform_combination_list` keys every combination by the text of its
   * id and keeps its blank-separated index ids; the last combination with
   * an id is the one kept.
   */
  lemma TransformCombinationListMeaning(combinations: seq<Combination>)
    ensures forall k :: k in CombinationDict(combinations) <==> HasKey(combinations, CombinationKey, k)
    ensures forall i :: (0 <= i < |combinations| &&
        (forall j :: i < j < |combinations| ==> combinations[j].combinationId != combinations[i].combinationId)) ==>
      IntToString(combinations[i].combinationId) in CombinationDict(combinations) &&
      CombinationDict(combinations)[IntToString(combinations[i].combinationId)] == Words(combinations[i].indexIds)
  {
    KeyedKeys(combinations, CombinationKey, CombinationValue);
    forall i | 0 <= i < |combinations| &&
        (forall j :: i < j < |combinations| ==> combinations[j].combinationId != combinations[i].combinationId)
      ensures IntToString(combinations[i].combinationId) in CombinationDict(combinations) &&
        CombinationDict(combinations)[IntToString(combinations[i].combinationId)] == Words(combinations[i].indexIds)
    {
      forall j | i < j < |combinations| ensures CombinationKey(combinations[j]) != CombinationKey(combinations[i]) {
        IntToStringInjective(combinations[j].combinationId, combinations[i].combinationId);
      }
      KeyedLast(combinations, CombinationKey, CombinationValue, i);
    }
  }

  /** What `transform_query_costs` builds: query, then combination, then the wrapped cost. */
  function CostsDict(queryCosts: seq<QueryCost>): map<string, map<string, CostRecord>> {
    if |queryCosts| == 0 then map[]
    else
      var costs := CostsDict(queryCosts[..|queryCosts| - 1]);
      var last := queryCosts[|queryCosts| - 1];
      var query := IntToString(last.queryNumber);
      var inner := if query in costs then costs[query] else map[];
      costs[query := inner[IntToString(last.combinationId) := CostRecord(last.costs)]]
  }

  /** `transform_query_costs`. */
  method TransformQueryCosts(queryCosts: seq<QueryCost>) returns (costsDict: map<string, map<string, CostRecord>>)
    ensures costsDict == CostsDict(queryCosts)
  {
    costsDict := map[];
    for i := 0 to |queryCosts|
      invariant costsDict == CostsDict(queryCosts[..i])
    {
      assert queryCosts[..i + 1][..i] == queryCosts[..i];
      var queryNumber := IntToString(queryCosts[i].queryNumber);
      var combinationId := IntToString(queryCosts[i].combinationId);
      if queryNumber !in costsDict {
        costsDict := costsDict[queryNumber := map[]];
      }
      costsDict := costsDict[queryNumber := costsDict[queryNumber][combinationId := CostRecord(queryCosts[i].costs)]];
    }
    assert queryCosts[..|queryCosts|] == queryCosts;
  }

  function PairKey(c: QueryCost): (string, string) { (IntToString(c.queryNumber), IntToString(c.combinationId)) }
  function PairValue(c: QueryCost): CostRecord { CostRecord(c.costs) }

  /** The nested dictionary is the dictionary keyed by (query, combination) pairs, split by query. */
  lemma {:induction false} CostsDictFlat(queryCosts: seq<QueryCost>)
    ensures var costs := CostsDict(queryCosts); var flat := Keyed(queryCosts, PairKey, PairValue);
      (forall q, c :: (q in costs && c in costs[q]) <==> (q, c) in flat) &&
      (forall q, c :: q in costs && c in costs[q] ==> costs[q][c] == flat[(q, c)]) &&
      (forall q :: q in costs ==> |costs[q]| > 0)
  {
    if |queryCosts| > 0 {
      CostsDictFlat(queryCosts[..|queryCosts| - 1]);
    }
  }

  /**
   * `transform_query_costs` keeps, under each query and combination, the
   * cost of the last entry for that pair, wrapped as `{"Cost": c}`; it
   * holds nothing else.
   */
  lemma TransformQueryCostsMeaning(queryCosts: seq<QueryCost>)
    ensures forall q, c :: q in CostsDict(queryCosts) && c in CostsDict(queryCosts)[q] <==> HasKey(queryCosts, PairKey, (q, c))
    ensures forall i :: 0 <= i < |queryCosts| && LastWithKey(queryCosts, PairKey, i) ==>
      var q := IntToString(queryCosts[i].queryNumber); var c := IntToString(queryCosts[i].combinationId);
      q in CostsDict(queryCosts) && c in CostsDict(queryCosts)[q] && CostsDict(queryCosts)[q][c] == CostRecord(queryCosts[i].costs)
  {
    CostsDictFlat(queryCosts);
    KeyedKeys(queryCosts, PairKey, PairValue);
    forall i | 0 <= i < |queryCosts| && LastWithKey(queryCosts, PairKey, i)
      ensures var q := IntToString(queryCosts[i].queryNumber); var c := IntToString(queryCosts[i].combinationId);
        q in CostsDict(queryCosts) && c in CostsDict(queryCosts)[q] && CostsDict(queryCosts)[q][c] == CostRecord(queryCosts[i].costs)
    {
      KeyedLast(queryCosts, PairKey, PairValue, i);
    }
  }

  // ------------------------------------------------------------ index ids to names

  /** What `convert_index_ids_to_names` gives: the indexes' column names in id order; a KeyError for an unknown id. */
  function IdNames(ids: seq<string>, indexDict: map<string, IndexSize>): Result<seq<string>> {
    if |ids| == 0 then Ok([])
    else match IdNames(ids[..|ids| - 1], indexDict)
      case Err(e) => Err(e)
      case Ok(names) =>
        if ids[|ids| - 1] in indexDict then Ok(names + indexDict[ids[|ids| - 1]].columnNames) else Err("KeyError")
  }

  /** Once a prefix of the ids fails, all of them fail the same way. */
  lemma {:induction false} IdNamesStop(ids: seq<string>, indexDict: map<string, IndexSize>, n: nat)
    requires n <= |ids| && IdNames(ids[..n], indexDict).Err?
    ensures IdNames(ids, indexDict) == IdNames(ids[..n], indexDict)
    decreases |ids| - n
  {
    if n < |ids| {
      assert ids[..n + 1][..n] == ids[..n];
      IdNamesStop(ids, indexDict, n + 1);
    } else {
      assert ids[..n] == ids;
    }
  }

  /** `convert_index_ids_to_names`. */
  method ConvertIndexIdsToNames(ids: seq<string>, indexDict: map<string, IndexSize>) returns (r: Result<seq<string>>)
    ensures r == IdNames(ids, indexDict)
  {
    var combined := [];
    for i := 0 to |ids|
      invariant IdNames(ids[..i], indexDict) == Ok(combined)
    {
      assert ids[..i + 1][..i] == ids[..i];
      if ids[i] !in indexDict {
        IdNamesStop(ids, indexDict, i + 1);
        return Err("KeyError");
      }
      var columns := indexDict[ids[i]].columnNames;
      ghost var before := combined;
      for j := 0 to |columns|
        invariant combined == before + columns[..j]
      {
        combined := combined + [columns[j]];
        assert columns[..j + 1] == columns[..j] + [columns[j]];
      }
      assert columns[..|columns|] == columns;
    }
    assert ids[..|ids|] == ids;
    r := Ok(combined);
  }

  /** The conversion fails exactly when an id is unknown, and then with a KeyError. */
  lemma {:induction false} IdNamesFails(ids: seq<string>, indexDict: map<string, IndexSize>)
    ensures IdNames(ids, indexDict).Ok? <==> forall k :: 0 <= k < |ids| ==> ids[k] in indexDict
    ensures IdNames(ids, indexDict).Err? ==> IdNames(ids, indexDict).error == "KeyError"
  {
    if |ids| > 0 {
      var init := ids[..|ids| - 1];
      IdNamesFails(init, indexDict);
      assert forall k :: 0 <= k < |init| ==> init[k] == ids[k];
    }
  }

  /** The names of a concatenation of ids are the names of the first part and then those of the second. */
  lemma {:induction false} IdNamesConcat(a: seq<string>, b: seq<string>, indexDict: map<string, IndexSize>)
    requires IdNames(a, indexDict).Ok? && IdNames(b, indexDict).Ok?
    ensures IdNames(a + b, indexDict) == Ok(IdNames(a, indexDict).value + IdNames(b, indexDict).value)
  {
    if |b| == 0 {
      assert a + b == a;
      assert IdNames(a, indexDict).value + IdNames(b, indexDict).value == IdNames(a, indexDict).value;
    } else {
      var init := b[..|b| - 1];
      assert (a + b)[..|a + b| - 1] == a + init;
      assert (a + b)[|a + b| - 1] == b[|b| - 1];
      IdNamesConcat(a, init, indexDict);
      var names := IdNames(a, indexDict).value;
      var initNames := IdNames(init, indexDict).value;
      var last := indexDict[b[|b| - 1]].columnNames;
      assert IdNames(b, indexDict).value == initNames + last;
      assert names + initNames + last == names + (initNames + last);
    }
  }

  /** A single id gives its index's column names. */
  lemma OneIdNames(id: string, indexDict: map<string, IndexSize>)
    requires id in indexDict
    ensures IdNames([id], indexDict) == Ok(indexDict[id].columnNames)
  {
    assert [id][..0] == [];
    assert IdNames([], indexDict) == Ok([]);
    assert [] + indexDict[id].columnNames == indexDict[id].columnNames;
  }


  // ------------------------------------------------------------ the solve file

  /** `file.readline()` at line `p`: the empty string once the file is exhausted. */
  function ReadLine(lines: seq<string>, p: nat): string {
    if p < |lines| then lines[p] else ""
  }

  /**
   * How the scan sees a line: whether, stripped, it holds the `;` closing
   * a section, its tokens once stripped (`line.split()`), and which of the
   * markers the seek loops look for it holds. The seeks for `x` and `z`
   * test lines as read, the seek for `Time` and the test of the line
   * closing `x` test them stripped.
   */
  datatype Row = Row(closes: bool, tokens: seq<string>, atX: bool, atZ: bool, strippedAtZ: bool, atTime: bool)

  function RowOf(line: string): Row {
    var stripped := Strip(line);
    Row(Contains(stripped, ";"), Words(stripped), Contains(line, "x [*] :="), Contains(line, "z :="),
        Contains(stripped, "z :="), Contains(stripped, "Time"))
  }

  /** The rows of all lines. */
  function Rows(lines: seq<string>): seq<Row> {
    seq(|lines|, k requires 0 <= k < |lines| => RowOf(lines[k]))
  }

  /** `rows` are the rows of `lines`, position by position. */
  predicate RowsOf(rows: seq<Row>, lines: seq<string>) {
    |rows| == |lines| && forall k {:trigger RowOf(lines[k])} :: 0 <= k < |lines| ==> rows[k] == RowOf(lines[k])
  }

  lemma RowsOfLines(lines: seq<string>)
    ensures RowsOf(Rows(lines), lines)
  {
    forall k | 0 <= k < |lines| ensures Rows(lines)[k] == RowOf(lines[k]) {
    }
  }

  /** The markers of the three seek loops. */
  datatype Marker = XMarker | ZMarker | TimeMarker

  predicate Holds(row: Row, marker: Marker) {
    match marker
    case XMarker => row.atX
    case ZMarker => row.atZ
    case TimeMarker => row.atTime
  }

  /**
   * The error where the source never returns: a seek loop that runs past
   * the last line keeps reading empty lines, none of which holds the
   * marker it is looking for.
   */
  const Hangs := "Hangs"

  /**
   * A seek loop (`while not marker in line`) from line `p`: the first line
   * holding `marker`, or `None` when none does.
   */
  function Seek(rows: seq<Row>, p: nat, marker: Marker): (r: Option<nat>)
    decreases |rows| - p
    ensures r.Some? ==> p <= r.value < |rows| && Holds(rows[r.value], marker)
    ensures r.Some? ==> forall i :: p <= i < r.value ==> !Holds(rows[i], marker)
    ensures r.None? ==> forall i :: p <= i < |rows| ==> !Holds(rows[i], marker)
  {
    if p >= |rows| then None
    else if Holds(rows[p], marker) then Some(p)
    else Seek(rows, p + 1, marker)
  }

  /** The test of a seek loop on one line. */
  method HoldsMarker(line: string, marker: Marker) returns (found: bool)
    ensures found == Holds(RowOf(line), marker)
  {
    match marker
    case XMarker => found := Contains(line, "x [*] :=");
    case ZMarker => found := Contains(line, "z :=");
    case TimeMarker => found := Contains(Strip(line), "Time");
  }

  /** A seek loop. */
  method SeekLine(lines: seq<string>, ghost rows: seq<Row>, p: nat, marker: Marker) returns (r: Option<nat>)
    requires RowsOf(rows, lines)
    ensures r == Seek(rows, p, marker)
  {
    var i := p;
    while true
      invariant p <= i && Seek(rows, i, marker) == Seek(rows, p, marker)
      decreases |lines| - i
    {
      if i >= |lines| {
        return None;
      }
      var found := HoldsMarker(lines[i], marker);
      SeekAt(rows, lines, i, marker, found);
      if found {
        return Some(i);
      }
      i := i + 1;
    }
  }

  /** One line of a seek loop: the line holds the marker, or the search goes on at the next line. */
  lemma SeekAt(rows: seq<Row>, lines: seq<string>, i: nat, marker: Marker, found: bool)
    requires RowsOf(rows, lines) && i < |lines| && found == Holds(RowOf(lines[i]), marker)
    ensures found ==> Seek(rows, i, marker) == Some(i)
    ensures !found ==> Seek(rows, i, marker) == Seek(rows, i + 1, marker)
  {
    assert rows[i] == RowOf(lines[i]);
  }

  /** A line of a section: `line.strip()`, then whether it holds `;`, then `line.split()`. */
  method ReadSectionLine(line: string) returns (closes: bool, contents: seq<string>)
    ensures closes == RowOf(line).closes && contents == RowOf(line).tokens
  {
    var stripped := Strip(line);
    closes := Contains(stripped, ";");
    contents := Words(stripped);
  }

  /**
   * The `x` section from line `p` to the line holding `;`: the column
   * names of every index whose value is `1`, appended to `acc`, and the
   * position of that line. A line with fewer than two tokens is an
   * IndexError and an unknown selected index a KeyError.
   */
  function SelectedFrom(rows: seq<Row>, p: nat, indexDict: map<string, IndexSize>, acc: seq<string>)
    : (r: Result<(seq<string>, nat)>)
    decreases |rows| - p
    ensures r.Ok? ==> p <= r.value.1 < |rows| && rows[r.value.1].closes
  {
    // past the end `readline` gives "", with no `;` and no token
    if p >= |rows| then Err("IndexError")
    else if rows[p].closes then Ok((acc, p))
    else
      var contents := rows[p].tokens;
      if |contents| < 2 then Err("IndexError")
      else if contents[1] != "1" then SelectedFrom(rows, p + 1, indexDict, acc)
      else if contents[0] !in indexDict then Err("KeyError")
      else SelectedFrom(rows, p + 1, indexDict, acc + indexDict[contents[0]].columnNames)
  }

  /** The `x` section's scan, from line `p`. */
  method ScanSelected(lines: seq<string>, ghost rows: seq<Row>, p: nat, indexDict: map<string, IndexSize>)
    returns (r: Result<(seq<string>, nat)>)
    requires RowsOf(rows, lines)
    ensures r == SelectedFrom(rows, p, indexDict, [])
  {
    var selected := [];
    var i := p;
    while true
      invariant p <= i && SelectedFrom(rows, i, indexDict, selected) == SelectedFrom(rows, p, indexDict, [])
      decreases |lines| - i
    {
      if i >= |lines| {
        return Err("IndexError");
      }
      var closes, contents := ReadSectionLine(lines[i]);
      if closes {
        return Ok((selected, i));
      }
      if |contents| < 2 {
        return Err("IndexError");
      }
      if contents[1] == "1" {
        if contents[0] !in indexDict {
          return Err("KeyError");
        }
        selected := selected + indexDict[contents[0]].columnNames;
      }
      i := i + 1;
    }
  }

  /** A line of the `x` section as the source reads it: two tokens, and a known index if selected. */
  predicate SelectionLine(row: Row, indexDict: map<string, IndexSize>) {
    |row.tokens| >= 2 && (row.tokens[1] == "1" ==> row.tokens[0] in indexDict)
  }

  /** What a line of the `x` section contributes: the index's column names if its value is `1`. */
  function Selection(row: Row, indexDict: map<string, IndexSize>): seq<string>
    requires SelectionLine(row, indexDict)
  {
    if row.tokens[1] == "1" then indexDict[row.tokens[0]].columnNames else []
  }

  /** The contributions of lines `p` up to (and without) `q`, in order. */
  function SelectedBetween(rows: seq<Row>, p: nat, q: nat, indexDict: map<string, IndexSize>): seq<string>
    requires q <= |rows| && forall i :: p <= i < q ==> SelectionLine(rows[i], indexDict)
    decreases q - p
  {
    if p >= q then [] else Selection(rows[p], indexDict) + SelectedBetween(rows, p + 1, q, indexDict)
  }

  /**
   * The `x` section read as the source reads it: it ends at the first
   * line holding `;`, every line before it is a selection line, and the
   * selected names are the contributions of those lines in order.
   */
  lemma {:induction false} SelectedFromMeaning(rows: seq<Row>, p: nat, indexDict: map<string, IndexSize>,
                                               acc: seq<string>)
    requires SelectedFrom(rows, p, indexDict, acc).Ok?
    ensures var q := SelectedFrom(rows, p, indexDict, acc).value.1;
      (forall i :: p <= i < q ==> !rows[i].closes && SelectionLine(rows[i], indexDict)) &&
      SelectedFrom(rows, p, indexDict, acc).value.0 == acc + SelectedBetween(rows, p, q, indexDict)
    decreases |rows| - p
  {
    if !rows[p].closes {
      var contents := rows[p].tokens;
      assert SelectionLine(rows[p], indexDict);
      var next := acc + Selection(rows[p], indexDict);
      if contents[1] == "1" {
        assert SelectedFrom(rows, p, indexDict, acc) == SelectedFrom(rows, p + 1, indexDict, next);
      } else {
        assert next == acc;
      }
      SelectedFromMeaning(rows, p + 1, indexDict, next);
      var q := SelectedFrom(rows, p, indexDict, acc).value.1;
      assert SelectedBetween(rows, p, q, indexDict) == Selection(rows[p], indexDict) + SelectedBetween(rows, p + 1, q, indexDict);
      assert next + SelectedBetween(rows, p + 1, q, indexDict) == acc + SelectedBetween(rows, p, q, indexDict);
    } else {
      assert acc + [] == acc;
    }
  }

  /**
   * Conversely, a section of selection lines closed by a `;` line gives
   * their contributions and that line.
   */
  lemma {:induction false} SelectedFromSection(rows: seq<Row>, p: nat, q: nat, indexDict: map<string, IndexSize>,
                                               acc: seq<string>)
    requires p <= q < |rows| && rows[q].closes
    requires forall i :: p <= i < q ==> !rows[i].closes && SelectionLine(rows[i], indexDict)
    ensures SelectedFrom(rows, p, indexDict, acc) == Ok((acc + SelectedBetween(rows, p, q, indexDict), q))
    decreases q - p
  {
    if p < q {
      var contents := rows[p].tokens;
      var next := if contents[1] == "1" then acc + indexDict[contents[0]].columnNames else acc;
      assert next == acc + Selection(rows[p], indexDict);
      SelectedFromSection(rows, p + 1, q, indexDict, next);
      assert next + SelectedBetween(rows, p + 1, q, indexDict) == acc + SelectedBetween(rows, p, q, indexDict);
    } else {
      assert acc + [] == acc;
    }
  }

  /** A line of the `z` section whose value is `1`. */
  predicate Chosen(row: Row) {
    |row.tokens| >= 3 && row.tokens[2] == "1"
  }

  /** A chosen line of the `z` section for the query `query`. */
  predicate ChosenFor(row: Row, query: string) {
    Chosen(row) && row.tokens[1] == query
  }

  /**
   * The `z` section from line `p` to the line holding `;`: for every
   * combination whose value is `1`, its index names and its cost go under
   * the query, into `byQuery` and `costsByQuery`. A line with fewer than
   * three tokens is an IndexError; an unknown combination, index, query or
   * query cost a KeyError.
   */
  function QueriesFrom(rows: seq<Row>, p: nat, combinations: map<string, seq<string>>,
                       indexDict: map<string, IndexSize>, costs: map<string, map<string, CostRecord>>,
                       byQuery: map<string, seq<string>>, costsByQuery: map<string, CostRecord>)
    : (r: Result<(map<string, seq<string>>, map<string, CostRecord>, nat)>)
    decreases |rows| - p
    ensures r.Ok? ==> p <= r.value.2 < |rows| && rows[r.value.2].closes
  {
    // past the end `readline` gives "", with no `;` and no token
    if p >= |rows| then Err("IndexError")
    else if rows[p].closes then Ok((byQuery, costsByQuery, p))
    else
      var contents := rows[p].tokens;
      if |contents| < 3 then Err("IndexError")
      else if contents[2] != "1" then QueriesFrom(rows, p + 1, combinations, indexDict, costs, byQuery, costsByQuery)
      else if contents[0] !in combinations then Err("KeyError")
      else match IdNames(combinations[contents[0]], indexDict)
        case Err(e) => Err(e)
        case Ok(names) =>
          if contents[1] !in costs || contents[0] !in costs[contents[1]] then Err("KeyError")
          else QueriesFrom(rows, p + 1, combinations, indexDict, costs, byQuery[contents[1] := names],
                           costsByQuery[contents[1] := costs[contents[1]][contents[0]]])
  }

  /** The `z` section's scan, from line `p`. */
  method ScanQueries(lines: seq<string>, ghost rows: seq<Row>, p: nat, combinations: map<string, seq<string>>,
                     indexDict: map<string, IndexSize>, costs: map<string, map<string, CostRecord>>)
    returns (r: Result<(map<string, seq<string>>, map<string, CostRecord>, nat)>)
    requires RowsOf(rows, lines)
    ensures r == QueriesFrom(rows, p, combinations, indexDict, costs, map[], map[])
  {
    var byQuery := map[];
    var costsByQuery := map[];
    var i := p;
    while true
      invariant p <= i
      invariant QueriesFrom(rows, i, combinations, indexDict, costs, byQuery, costsByQuery) ==
                QueriesFrom(rows, p, combinations, indexDict, costs, map[], map[])
      decreases |lines| - i
    {
      if i >= |lines| {
        return Err("IndexError");
      }
      var closes, contents := ReadSectionLine(lines[i]);
      if closes {
        return Ok((byQuery, costsByQuery, i));
      }
      if |contents| < 3 {
        return Err("IndexError");
      }
      if contents[2] == "1" {
        if contents[0] !in combinations {
          return Err("KeyError");
        }
        var names := ConvertIndexIdsToNames(combinations[contents[0]], indexDict);
        if names.Err? {
          return Err(names.error);
        }
        if contents[1] !in costs || contents[0] !in costs[contents[1]] {
          return Err("KeyError");
        }
        byQuery := byQuery[contents[1] := names.value];
        costsByQuery := costsByQuery[contents[1] := costs[contents[1]][contents[0]]];
      }
      i := i + 1;
    }
  }

  /** A line of the `z` section as the source reads it: three tokens; if chosen, everything it names is known. */
  predicate QueryLine(row: Row, combinations: map<string, seq<string>>, indexDict: map<string, IndexSize>,
                      costs: map<string, map<string, CostRecord>>)
  {
    var contents := row.tokens;
    |contents| >= 3 &&
    (contents[2] == "1" ==>
      contents[0] in combinations && IdNames(combinations[contents[0]], indexDict).Ok? &&
      contents[1] in costs && contents[0] in costs[contents[1]])
  }

  /** The `z` section ends at the first line holding `;`, and every line before it is a query line. */
  lemma {:induction false} QueriesFromLines(rows: seq<Row>, p: nat, combinations: map<string, seq<string>>,
                                            indexDict: map<string, IndexSize>, costs: map<string, map<string, CostRecord>>,
                                            byQuery: map<string, seq<string>>, costsByQuery: map<string, CostRecord>)
    requires QueriesFrom(rows, p, combinations, indexDict, costs, byQuery, costsByQuery).Ok?
    ensures var q := QueriesFrom(rows, p, combinations, indexDict, costs, byQuery, costsByQuery).value.2;
      forall i :: p <= i < q ==> !rows[i].closes && QueryLine(rows[i], combinations, indexDict, costs)
    decreases |rows| - p
  {
    if !rows[p].closes {
      var contents := rows[p].tokens;
      if contents[2] != "1" {
        QueriesFromLines(rows, p + 1, combinations, indexDict, costs, byQuery, costsByQuery);
      } else {
        var names := IdNames(combinations[contents[0]], indexDict).value;
        QueriesFromLines(rows, p + 1, combinations, indexDict, costs, byQuery[contents[1] := names],
                         costsByQuery[contents[1] := costs[contents[1]][contents[0]]]);
      }
    }
  }

  /**
   * A query has an entry in the result exactly when it had one before or a
   * chosen line of the section names it; a query no chosen line names
   * keeps what it had.
   */
  lemma {:induction false} QueriesFromKeys(rows: seq<Row>, p: nat, combinations: map<string, seq<string>>,
                                           indexDict: map<string, IndexSize>, costs: map<string, map<string, CostRecord>>,
                                           byQuery: map<string, seq<string>>, costsByQuery: map<string, CostRecord>)
    requires QueriesFrom(rows, p, combinations, indexDict, costs, byQuery, costsByQuery).Ok?
    ensures var r := QueriesFrom(rows, p, combinations, indexDict, costs, byQuery, costsByQuery).value;
      forall k :: k in r.0 <==> k in byQuery || exists i :: p <= i < r.2 && ChosenFor(rows[i], k)
    ensures var r := QueriesFrom(rows, p, combinations, indexDict, costs, byQuery, costsByQuery).value;
      forall k :: k in r.1 <==> k in costsByQuery || exists i :: p <= i < r.2 && ChosenFor(rows[i], k)
    ensures var r := QueriesFrom(rows, p, combinations, indexDict, costs, byQuery, costsByQuery).value;
      forall k :: (forall i :: p <= i < r.2 ==> !ChosenFor(rows[i], k)) ==>
        (k in byQuery ==> r.0[k] == byQuery[k]) && (k in costsByQuery ==> r.1[k] == costsByQuery[k])
    decreases |rows| - p
  {
    if !rows[p].closes {
      var contents := rows[p].tokens;
      if contents[2] != "1" {
        QueriesFromKeys(rows, p + 1, combinations, indexDict, costs, byQuery, costsByQuery);
        assert forall k :: !ChosenFor(rows[p], k);
      } else {
        var names := IdNames(combinations[contents[0]], indexDict).value;
        var b := byQuery[contents[1] := names];
        var c := costsByQuery[contents[1] := costs[contents[1]][contents[0]]];
        QueriesFromKeys(rows, p + 1, combinations, indexDict, costs, b, c);
        assert ChosenFor(rows[p], contents[1]);
        assert forall k :: k != contents[1] ==> !ChosenFor(rows[p], k);
      }
    }
  }

  /**
   * The entry of a query is written by the last chosen line of the section
   * that names it: the names of that line's combination and its cost.
   */
  lemma {:induction false} QueriesFromLast(rows: seq<Row>, p: nat, combinations: map<string, seq<string>>,
                                           indexDict: map<string, IndexSize>, costs: map<string, map<string, CostRecord>>,
                                           byQuery: map<string, seq<string>>, costsByQuery: map<string, CostRecord>,
                                           i: nat)
    requires QueriesFrom(rows, p, combinations, indexDict, costs, byQuery, costsByQuery).Ok?
    requires p <= i < QueriesFrom(rows, p, combinations, indexDict, costs, byQuery, costsByQuery).value.2
    requires Chosen(rows[i])
    requires forall j :: i < j < QueriesFrom(rows, p, combinations, indexDict, costs, byQuery, costsByQuery).value.2 ==>
      !ChosenFor(rows[j], rows[i].tokens[1])
    ensures var r := QueriesFrom(rows, p, combinations, indexDict, costs, byQuery, costsByQuery).value;
      var contents := rows[i].tokens;
      contents[0] in combinations && IdNames(combinations[contents[0]], indexDict).Ok? &&
      contents[1] in costs && contents[0] in costs[contents[1]] &&
      contents[1] in r.0 && r.0[contents[1]] == IdNames(combinations[contents[0]], indexDict).value &&
      contents[1] in r.1 && r.1[contents[1]] == costs[contents[1]][contents[0]]
    decreases |rows| - p
  {
    var contents := rows[p].tokens;
    if contents[2] != "1" {
      QueriesFromLast(rows, p + 1, combinations, indexDict, costs, byQuery, costsByQuery, i);
    } else {
      var names := IdNames(combinations[contents[0]], indexDict).value;
      var b := byQuery[contents[1] := names];
      var c := costsByQuery[contents[1] := costs[contents[1]][contents[0]]];
      if i == p {
        QueriesFromKeys(rows, p + 1, combinations, indexDict, costs, b, c);
      } else {
        QueriesFromLast(rows, p + 1, combinations, indexDict, costs, b, c, i);
      }
    }
  }

  /** What `parse_solve` returns. */
  datatype SolveResult = SolveResult(overallCosts: real, selectedIndexes: seq<string>,
                                     algorithmIndexesByQuery: map<string, seq<string>>,
                                     costsByQuery: map<string, CostRecord>, timeRunSolve: real)

  /**
   * `parse_solve` over the solve file's lines and their rows, with the
   * three dictionaries already built. A first line without `objective`
   * raises a string, which Python rejects with a TypeError.
   */
  function SolveWith(lines: seq<string>, rows: seq<Row>, indexDict: map<string, IndexSize>,
                     combinations: map<string, seq<string>>, costs: map<string, map<string, CostRecord>>,
                     toFloat: string -> Option<real>): Result<SolveResult>
    requires |rows| == |lines|
  {
    var first := ReadLine(lines, 0);
    var objective := Find(first, "objective");
    if objective == -1 then Err("TypeError")
    else match toFloat(DropFront(first, objective + 10))
      case None => Err("ValueError")
      case Some(overallCosts) => FromX(lines, rows, indexDict, combinations, costs, toFloat, overallCosts)
  }

  /** From the seek for `x` on: the `x` section, then the rest. */
  function FromX(lines: seq<string>, rows: seq<Row>, indexDict: map<string, IndexSize>,
                 combinations: map<string, seq<string>>, costs: map<string, map<string, CostRecord>>,
                 toFloat: string -> Option<real>, overallCosts: real): Result<SolveResult>
    requires |rows| == |lines|
  {
    match Seek(rows, 0, XMarker)
    case None => Err(Hangs)
    case Some(x) =>
      // the line after the one holding `x [*] :=` is skipped
      match SelectedFrom(rows, x + 1, indexDict, [])
      case Err(e) => Err(e)
      case Ok((selected, endX)) => FromZ(lines, rows, indexDict, combinations, costs, toFloat, overallCosts, selected, endX)
  }

  /** The line of the `z` marker: the line closing `x` when it holds `z :=`, else the next marker line. */
  function ZAt(rows: seq<Row>, endX: nat): (r: Option<nat>)
    requires endX < |rows|
    ensures r.Some? ==> endX <= r.value
  {
    if rows[endX].strippedAtZ then Some(endX) else Seek(rows, endX + 1, ZMarker)
  }

  /** From the seek for `z` on, which tests the line closing `x` first: the `z` section, then the time. */
  function FromZ(lines: seq<string>, rows: seq<Row>, indexDict: map<string, IndexSize>,
                 combinations: map<string, seq<string>>, costs: map<string, map<string, CostRecord>>,
                 toFloat: string -> Option<real>, overallCosts: real, selected: seq<string>, endX: nat)
    : Result<SolveResult>
    requires |rows| == |lines| && endX < |rows|
  {
    match ZAt(rows, endX)
    case None => Err(Hangs)
    case Some(zAt) =>
      match QueriesFrom(rows, zAt + 1, combinations, indexDict, costs, map[], map[])
      case Err(e) => Err(e)
      case Ok((byQuery, costsByQuery, endZ)) =>
        FromTime(lines, rows, toFloat, overallCosts, selected, byQuery, costsByQuery, endZ)
  }

  /** From the seek for `Time` on, which tests the line closing `z` first: the solver's time after `Time: `. */
  function FromTime(lines: seq<string>, rows: seq<Row>, toFloat: string -> Option<real>, overallCosts: real,
                    selected: seq<string>, byQuery: map<string, seq<string>>, costsByQuery: map<string, CostRecord>,
                    endZ: nat): Result<SolveResult>
    requires |rows| == |lines|
  {
    match Seek(rows, endZ, TimeMarker)
    case None => Err(Hangs)
    case Some(t) =>
      match toFloat(DropFront(Strip(lines[t]), 6))
      case None => Err("ValueError")
      case Some(time) => Ok(SolveResult(overallCosts, selected, byQuery, costsByQuery, time))
  }

  /** `parse_solve` for a CoPhy input and the lines of its solve file. */
  function ParsedSolve(lines: seq<string>, input: CophyInput, toFloat: string -> Option<real>): Result<SolveResult> {
    SolveWith(lines, Rows(lines), IndexDict(input.indexSizes), CombinationDict(input.indexCombinations),
              CostsDict(input.queryCosts), toFloat)
  }

  /** `parse_solve`. */
  method ParseSolve(lines: seq<string>, input: CophyInput, toFloat: string -> Option<real>) returns (r: Result<SolveResult>)
    ensures r == ParsedSolve(lines, input, toFloat)
  {
    var indexDict := TransformIndexList(input.indexSizes);
    var combinations := TransformCombinationList(input.indexCombinations);
    var costs := TransformQueryCosts(input.queryCosts);
    RowsOfLines(lines);
    r := ScanSolve(lines, Rows(lines), indexDict, combinations, costs, toFloat);
  }

  /** The scan of the solve file: the objective on the first line, then the sections. */
  method ScanSolve(lines: seq<string>, ghost rows: seq<Row>, indexDict: map<string, IndexSize>,
                   combinations: map<string, seq<string>>, costs: map<string, map<string, CostRecord>>,
                   toFloat: string -> Option<real>)
    returns (r: Result<SolveResult>)
    requires RowsOf(rows, lines)
    ensures r == SolveWith(lines, rows, indexDict, combinations, costs, toFloat)
  {
    var line := ReadLine(lines, 0);
    var objectiveIndex := Find(line, "objective");
    if objectiveIndex == -1 {
      return Err("TypeError");
    }
    var overallCosts := toFloat(DropFront(line, objectiveIndex + 10));
    if overallCosts.None? {
      return Err("ValueError");
    }
    r := ScanFromX(lines, rows, indexDict, combinations, costs, toFloat, overallCosts.value);
  }

  /** The seek for `x` and the `x` section. */
  method ScanFromX(lines: seq<string>, ghost rows: seq<Row>, indexDict: map<string, IndexSize>,
                   combinations: map<string, seq<string>>, costs: map<string, map<string, CostRecord>>,
                   toFloat: string -> Option<real>, overallCosts: real)
    returns (r: Result<SolveResult>)
    requires RowsOf(rows, lines)
    ensures r == FromX(lines, rows, indexDict, combinations, costs, toFloat, overallCosts)
  {
    var x := SeekLine(lines, rows, 0, XMarker);
    if x.None? {
      return Err(Hangs);
    }
    var selected := ScanSelected(lines, rows, x.value + 1, indexDict);
    if selected.Err? {
      return Err(selected.error);
    }
    r := ScanFromZ(lines, rows, indexDict, combinations, costs, toFloat, overallCosts, selected.value.0, selected.value.1);
  }

  /** The test of the line closing `x`, which is stripped, for the `z` marker. */
  method StrippedAtZ(lines: seq<string>, ghost rows: seq<Row>, p: nat) returns (found: bool)
    requires RowsOf(rows, lines) && p < |lines|
    ensures found == rows[p].strippedAtZ
  {
    found := Contains(Strip(lines[p]), "z :=");
    assert rows[p] == RowOf(lines[p]);
  }

  /** The seek for `z` and the `z` section. */
  method ScanFromZ(lines: seq<string>, ghost rows: seq<Row>, indexDict: map<string, IndexSize>,
                   combinations: map<string, seq<string>>, costs: map<string, map<string, CostRecord>>,
                   toFloat: string -> Option<real>, overallCosts: real, selected: seq<string>, endX: nat)
    returns (r: Result<SolveResult>)
    requires RowsOf(rows, lines) && endX < |lines|
    ensures r == FromZ(lines, rows, indexDict, combinations, costs, toFloat, overallCosts, selected, endX)
  {
    var z := SeekZ(lines, rows, endX);
    if z.None? {
      return Err(Hangs);
    }
    var queries := ScanQueries(lines, rows, z.value + 1, combinations, indexDict, costs);
    if queries.Err? {
      return Err(queries.error);
    }
    r := ScanFromTime(lines, rows, toFloat, overallCosts, selected, queries.value.0, queries.value.1, queries.value.2);
  }

  /** The seek for `z`, which tests the line closing `x` first. */
  method SeekZ(lines: seq<string>, ghost rows: seq<Row>, endX: nat) returns (z: Option<nat>)
    requires RowsOf(rows, lines) && endX < |lines|
    ensures z == ZAt(rows, endX)
  {
    var atZ := StrippedAtZ(lines, rows, endX);
    if atZ {
      z := Some(endX);
    } else {
      z := SeekLine(lines, rows, endX + 1, ZMarker);
    }
  }

  /** The seek for `Time` and the solver's time. */
  method ScanFromTime(lines: seq<string>, ghost rows: seq<Row>, toFloat: string -> Option<real>, overallCosts: real,
                      selected: seq<string>, byQuery: map<string, seq<string>>, costsByQuery: map<string, CostRecord>,
                      endZ: nat)
    returns (r: Result<SolveResult>)
    requires RowsOf(rows, lines)
    ensures r == FromTime(lines, rows, toFloat, overallCosts, selected, byQuery, costsByQuery, endZ)
  {
    var t := SeekLine(lines, rows, endZ, TimeMarker);
    if t.None? {
      return Err(Hangs);
    }
    var time := toFloat(DropFront(Strip(lines[t.value]), 6));
    if time.None? {
      return Err("ValueError");
    }
    r := Ok(SolveResult(overallCosts, selected, byQuery, costsByQuery, time.value));
  }

  // ------------------------------------------------------------ properties of parse_solve

  /**
   * A first line without `objective` makes the parse fail; otherwise the
   * overall costs are the number after `objective ` on that line.
   */
  lemma SolveNeedsObjective(lines: seq<string>, input: CophyInput, toFloat: string -> Option<real>)
    ensures !Contains(ReadLine(lines, 0), "objective") ==> ParsedSolve(lines, input, toFloat) == Err("TypeError")
    ensures ParsedSolve(lines, input, toFloat).Ok? ==>
      Contains(ReadLine(lines, 0), "objective") &&
      toFloat(DropFront(ReadLine(lines, 0), Find(ReadLine(lines, 0), "objective") + 10)) ==
        Some(ParsedSolve(lines, input, toFloat).value.overallCosts)
  {
  }

  /**
   * The selected indexes of a parse are the contributions of the lines
   * after the first line holding `x [*] :=` and its assignment line, up to
   * the first line holding `;`.
   */
  lemma SolveSelectedIndexes(lines: seq<string>, rows: seq<Row>, indexDict: map<string, IndexSize>,
                             combinations: map<string, seq<string>>, costs: map<string, map<string, CostRecord>>,
                             toFloat: string -> Option<real>)
    requires |rows| == |lines| && SolveWith(lines, rows, indexDict, combinations, costs, toFloat).Ok?
    ensures Seek(rows, 0, XMarker).Some? && SelectedFrom(rows, Seek(rows, 0, XMarker).value + 1, indexDict, []).Ok?
    ensures match Seek(rows, 0, XMarker)
      case None => false
      case Some(x) =>
        match SelectedFrom(rows, x + 1, indexDict, [])
        case Err(_) => false
        case Ok((_, end)) =>
          (forall i :: x + 1 <= i < end ==> SelectionLine(rows[i], indexDict)) &&
          SolveWith(lines, rows, indexDict, combinations, costs, toFloat).value.selectedIndexes ==
            SelectedBetween(rows, x + 1, end, indexDict)
  {
    var first := ReadLine(lines, 0);
    var overallCosts := toFloat(DropFront(first, Find(first, "objective") + 10)).value;
    assert SolveWith(lines, rows, indexDict, combinations, costs, toFloat) ==
      FromX(lines, rows, indexDict, combinations, costs, toFloat, overallCosts);
    FromXSelected(lines, rows, indexDict, combinations, costs, toFloat, overallCosts);
    var start := Seek(rows, 0, XMarker).value + 1;
    SelectedFromMeaning(rows, start, indexDict, []);
  }

  /** A parse that gets past the `x` section reports the names that section selected. */
  lemma FromXSelected(lines: seq<string>, rows: seq<Row>, indexDict: map<string, IndexSize>,
                      combinations: map<string, seq<string>>, costs: map<string, map<string, CostRecord>>,
                      toFloat: string -> Option<real>, overallCosts: real)
    requires |rows| == |lines| && FromX(lines, rows, indexDict, combinations, costs, toFloat, overallCosts).Ok?
    ensures Seek(rows, 0, XMarker).Some?
    ensures SelectedFrom(rows, Seek(rows, 0, XMarker).value + 1, indexDict, []).Ok?
    ensures FromX(lines, rows, indexDict, combinations, costs, toFloat, overallCosts).value.selectedIndexes ==
      SelectedFrom(rows, Seek(rows, 0, XMarker).value + 1, indexDict, []).value.0
  {
    var sf := SelectedFrom(rows, Seek(rows, 0, XMarker).value + 1, indexDict, []).value;
    FromZKeepsSelected(lines, rows, indexDict, combinations, costs, toFloat, overallCosts, sf.0, sf.1);
  }

  /** The rest of a parse after the `x` section keeps its selected names. */
  lemma FromZKeepsSelected(lines: seq<string>, rows: seq<Row>, indexDict: map<string, IndexSize>,
                           combinations: map<string, seq<string>>, costs: map<string, map<string, CostRecord>>,
                           toFloat: string -> Option<real>, overallCosts: real, selected: seq<string>, endX: nat)
    requires |rows| == |lines| && endX < |rows|
    requires FromZ(lines, rows, indexDict, combinations, costs, toFloat, overallCosts, selected, endX).Ok?
    ensures FromZ(lines, rows, indexDict, combinations, costs, toFloat, overallCosts, selected, endX).value.selectedIndexes == selected
  {
  }
}
