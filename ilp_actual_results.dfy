/**
 * selection/algorithms/ilp_actual_results.py: turns a solved ILP back into
 * indexes. The solver's output names the chosen index combinations; their
 * index ids are united, and every selected index is rebuilt from its column
 * names, which are resolved through the workload's columns. The selection
 * must fit the budget.
 *
 * The decoded ILP input (the `index_sizes` and `index_combinations` lists)
 * is a parameter, and reading a solution file is the function `read`.
 */
module IlpActualResults {
  import opened Common
  import opened Schema
  import opened Indexes
  import opened Workloads
  import opened SelectionAlgorithms
  import CombineInput

  type IndexEntry = CombineInput.IndexEntry
  type CombinationEntry = CombineInput.CombinationEntry

  /** The parameters `__init__` reads; `input_file` names the decoded input, which is given directly. */
  datatype Settings = Settings(budgetMb: int, algorithm: string, benchmarkName: string, numberOfChunks: int)

  /**
   * `__init__`: there are no defaults, so a missing parameter is a
   * KeyError. Budget and chunk count are taken to be integers and the
   * names strings; a value of another kind is reported as a TypeError.
   */
  function SettingsOf(p: Params): (r: Result<Settings>)
    ensures r.Err? <==>
      (!({"budget_MB", "input_file", "algorithm", "benchmark_name", "number_of_chunks"} <= p.Keys) ||
       !p["budget_MB"].IntParam? || !p["algorithm"].TextParam? || !p["benchmark_name"].TextParam? ||
       !p["number_of_chunks"].IntParam?)
    ensures r.Err? && !({"budget_MB", "input_file", "algorithm", "benchmark_name", "number_of_chunks"} <= p.Keys) ==>
      r.error == "KeyError"
    ensures r.Ok? ==> r.value.budgetMb == p["budget_MB"].n && r.value.numberOfChunks == p["number_of_chunks"].n
  {
    if !({"budget_MB", "input_file", "algorithm", "benchmark_name", "number_of_chunks"} <= p.Keys) then Err("KeyError")
    else if !p["budget_MB"].IntParam? || !p["algorithm"].TextParam? || !p["benchmark_name"].TextParam? ||
            !p["number_of_chunks"].IntParam? then Err("TypeError")
    else Ok(Settings(p["budget_MB"].n, p["algorithm"].s, p["benchmark_name"].s, p["number_of_chunks"].n))
  }

  /** The budget in bytes, `budget_MB * 1000**2`. */
  function BudgetBytes(s: Settings): int {
    s.budgetMb * 1000 * 1000
  }

  // ------------------------------------------------------------ the input tables

  /** `indexes`: index id to its entry (size and column names); a later entry for an id replaces an earlier one. */
  function IndexTable(entries: seq<IndexEntry>): map<int, IndexEntry> {
    if |entries| == 0 then map[]
    else IndexTable(entries[..|entries| - 1])[entries[|entries| - 1].indexId := entries[|entries| - 1]]
  }

  /** `index_combinations`: combination id to its index ids. */
  function CombinationTable(entries: seq<CombinationEntry>): map<int, seq<int>> {
    if |entries| == 0 then map[]
    else
      var e := entries[|entries| - 1];
      CombinationTable(entries[..|entries| - 1])[e.combinationId := e.indexIds]
  }

  method ReadTables(indexSizes: seq<IndexEntry>, combinations: seq<CombinationEntry>)
    returns (indexes: map<int, IndexEntry>, indexCombinations: map<int, seq<int>>)
    ensures indexes == IndexTable(indexSizes) && indexCombinations == CombinationTable(combinations)
  {
    indexes := map[];
    for i := 0 to |indexSizes|
      invariant indexes == IndexTable(indexSizes[..i])
    {
      assert indexSizes[..i + 1][..i] == indexSizes[..i];
      indexes := indexes[indexSizes[i].indexId := indexSizes[i]];
    }
    assert indexSizes[..|indexSizes|] == indexSizes;
    indexCombinations := map[];
    for i := 0 to |combinations|
      invariant indexCombinations == CombinationTable(combinations[..i])
    {
      assert combinations[..i + 1][..i] == combinations[..i];
      indexCombinations := indexCombinations[combinations[i].combinationId := combinations[i].indexIds];
    }
    assert combinations[..|combinations|] == combinations;
  }

  // ------------------------------------------------------------ columns by name

  /** Storing columns under their names; a later column of the same name replaces an earlier one. */
  function AddColumns(m: map<string, Column>, cols: seq<Column>): map<string, Column> {
    if |cols| == 0 then m else AddColumns(m, cols[..|cols| - 1])[cols[|cols| - 1].name := cols[|cols| - 1]]
  }

  /** `columns`: every query column under its name, query by query. */
  function ColumnTable(queries: seq<Query>): map<string, Column> {
    if |queries| == 0 then map[] else AddColumns(ColumnTable(queries[..|queries| - 1]), queries[|queries| - 1].columns)
  }

  method CollectColumns(queries: seq<Query>) returns (columns: map<string, Column>)
    ensures columns == ColumnTable(queries)
  {
    columns := map[];
    for i := 0 to |queries|
      invariant columns == ColumnTable(queries[..i])
    {
      assert queries[..i + 1][..i] == queries[..i];
      var before := columns;
      var cols := queries[i].columns;
      for j := 0 to |cols|
        invariant columns == AddColumns(before, cols[..j])
      {
        assert cols[..j + 1][..j] == cols[..j];
        columns := columns[cols[j].name := cols[j]];
      }
      assert cols[..|cols|] == cols;
    }
    assert queries[..|queries|] == queries;
  }

  /**
   * The TPC-H case as written: `Column("s_acctbal")` passes one argument
   * to a constructor that takes three, so it raises a TypeError.
   */
  function BenchmarkColumnsAsWritten(s: Settings, columns: map<string, Column>): Result<map<string, Column>> {
    if s.benchmarkName == "tpch" then Err("TypeError") else Ok(columns)
  }

  /**
   * The TPC-H case as intended: a column `s_acctbal` on the table of
   * `s_suppkey` (a KeyError if no query uses `s_suppkey`).
   */
  function BenchmarkColumns(s: Settings, columns: map<string, Column>): Result<map<string, Column>> {
    if s.benchmarkName != "tpch" then Ok(columns)
    else if "s_suppkey" !in columns then Err("KeyError")
    else Ok(columns["s_acctbal" := Column("s_acctbal", columns["s_suppkey"].table)])
  }

  // ------------------------------------------------------------ the solution file

  predicate AllDigits(s: string) {
    forall k :: 0 <= k < |s| ==> IsDigit(s[k])
  }

  /**
   * `int(float(s))` on a decimal numeral: surrounding whitespace, an
   * optional sign, digits with an optional fraction (at least one digit in
   * all) and an optional exponent, truncated toward zero.
   */
  function FloatToInt(s: string): Result<int> {
    SignedFloatToInt(Strip(s))
  }

  /** `int(float(t))` on text without surrounding whitespace: the sign, then the unsigned numeral. */
  function SignedFloatToInt(t: string): Result<int> {
    var neg := |t| > 0 && t[0] == '-';
    var v := UnsignedFloatToNat(if |t| > 0 && (t[0] == '-' || t[0] == '+') then t[1..] else t);
    if v.Err? then Err(v.error) else Ok(if neg then -(v.value as int) else v.value)
  }

  /** The position of the first exponent mark `e` or `E`, or the length when there is none. */
  function ExponentAt(s: string): (k: nat)
    ensures k <= |s|
    ensures k < |s| ==> s[k] == 'e' || s[k] == 'E'
  {
    if |s| == 0 || s[0] == 'e' || s[0] == 'E' then 0 else ExponentAt(s[1..]) + 1
  }

  /** An exponent `[sign]digits`; anything else is not one. */
  function ExponentValue(x: string): Option<int> {
    var neg := |x| > 0 && x[0] == '-';
    var d := if |x| > 0 && (x[0] == '-' || x[0] == '+') then x[1..] else x;
    if |d| == 0 || !AllDigits(d) then None
    else Some(if neg then -(DigitsValue(d) as int) else DigitsValue(d))
  }

  /** `10 ** k`. */
  function Pow10(k: nat): (r: nat)
    ensures r >= 1
  {
    if k == 0 then 1 else 10 * Pow10(k - 1)
  }

  /** `k` zero digits. */
  function Zeros(k: nat): (z: string)
    ensures |z| == k
  {
    if k == 0 then "" else Zeros(k - 1) + "0"
  }

  /**
   * The digits of the whole part of `whole.fraction` times `10 ** e`: the
   * point moves `e` places, right (padding with zeros) or left (cutting
   * digits off, which truncates toward zero).
   */
  function IntegralDigits(whole: string, fraction: string, e: int): string {
    if e >= 0 then
      if e <= |fraction| then whole + fraction[..e] else whole + fraction + Zeros(e - |fraction|)
    else if -e >= |whole| then ""
    else whole[..|whole| + e]
  }

  /** Moving the point keeps digits digits. */
  lemma IntegralDigitsAreDigits(whole: string, fraction: string, e: int)
    requires AllDigits(whole) && AllDigits(fraction)
    ensures AllDigits(IntegralDigits(whole, fraction, e))
  {
    if e > |fraction| {
      ZerosAreDigits(e - |fraction|);
    }
  }

  lemma {:induction false} ZerosAreDigits(k: nat)
    ensures AllDigits(Zeros(k))
  {
    if k > 0 {
      ZerosAreDigits(k - 1);
    }
  }

  /**
   * A mantissa `digits[.digits]` with at least one digit: its whole part
   * and its fraction.
   */
  function Mantissa(m: string): Option<(string, string)> {
    var parts := SplitOnce(m, ".");
    var whole := parts[0];
    var fraction := if |parts| == 2 then parts[1] else "";
    if (|whole| == 0 && |fraction| == 0) || !AllDigits(whole) || !AllDigits(fraction) then None
    else Some((whole, fraction))
  }

  /**
   * The whole part of an unsigned numeral `mantissa[e[sign]digits]`:
   * without an exponent the digits before the point; with one the digits
   * before the point once it has moved by the exponent.
   */
  function UnsignedFloatToNat(body: string): Result<nat> {
    var at := ExponentAt(body);
    var mantissa := Mantissa(body[..at]);
    var exponent := if at < |body| then ExponentValue(body[at + 1..]) else Some(0);
    if mantissa.None? || exponent.None? then Err("ValueError")
    else
      var (whole, fraction) := mantissa.value;
      IntegralDigitsAreDigits(whole, fraction, exponent.value);
      Ok(DigitsValue(IntegralDigits(whole, fraction, exponent.value)))
  }

  /** The last element of a split, `parts[-1]`. */
  function Last(parts: seq<string>): string
    requires |parts| > 0
  {
    parts[|parts| - 1]
  }

  /** `result_str.split("\n\n\n")[1:-1]`: the result blocks between the header and the trailer. */
  function Blocks(text: string): seq<string> {
    var parts := Split(text, "\n\n\n");
    if |parts| < 2 then [] else parts[1..|parts| - 1]
  }

  /**
   * One result block: it must have six lines; the first ends in
   * `= <storage budget>`, the sixth lists the chosen combination ids.
   */
  function ParseBlock(block: string): Result<(int, string)> {
    var lines := Split(block, "\n");
    if |lines| != 6 then Err("AssertionError")
    else
      var storageBudget := FloatToInt(Last(Split(lines[0], " = ")));
      if storageBudget.Err? then Err(storageBudget.error) else Ok((storageBudget.value, lines[5]))
  }

  /**
   * The single-chunk scan: blocks are read in order and the first whose
   * storage budget equals `target` gives its sixth line; no such block
   * gives nothing.
   */
  function ChosenLine(blocks: seq<string>, target: int): Result<Option<string>>
  {
    if |blocks| == 0 then Ok(None)
    else
      var b := ParseBlock(blocks[0]);
      if b.Err? then Err(b.error)
      else if b.value.0 == target then Ok(Some(b.value.1))
      else ChosenLine(blocks[1..], target)
  }

  method ChooseBlock(blocks: seq<string>, target: int) returns (r: Result<Option<string>>)
    ensures r == ChosenLine(blocks, target)
  {
    var i := 0;
    while i < |blocks|
      invariant 0 <= i <= |blocks|
      invariant ChosenLine(blocks, target) == ChosenLine(blocks[i..], target)
    {
      assert blocks[i..][1..] == blocks[i + 1..];
      var lines := Split(blocks[i], "\n");
      if |lines| != 6 {
        return Err("AssertionError");
      }
      var storageBudget := FloatToInt(Last(Split(lines[0], " = ")));
      if storageBudget.Err? {
        return Err(storageBudget.error);
      }
      if storageBudget.value == target {
        return Ok(Some(lines[5]));
      }
      i := i + 1;
    }
    r := Ok(None);
  }

  /** `.split("\n")[1].split(":")[1].split()` of a multi-chunk solution; a missing part is an IndexError. */
  function ChunkedIds(text: string): Result<seq<string>> {
    var lines := Split(text, "\n");
    if |lines| < 2 then Err("IndexError")
    else
      var parts := Split(lines[1], ":");
      if |parts| < 2 then Err("IndexError") else Ok(Words(parts[1]))
  }

  /** The solution file's path. */
  function SolutionPath(s: Settings): string {
    if s.numberOfChunks == 1 then "ILP/" + s.benchmarkName + "_" + s.algorithm + "_solution.txt"
    else
      "ILP/" + s.benchmarkName + "_" + s.algorithm + "_budget" + IntToString(s.budgetMb) + "_chunks" +
      IntToString(s.numberOfChunks) + "_solution.txt"
  }

  /**
   * The combination ids as text. A single-chunk solution without a block
   * for the budget leaves `combination_ids` unbound.
   */
  function CombinationIdTexts(s: Settings, read: string -> string): Result<seq<string>> {
    var text := read(SolutionPath(s));
    if s.numberOfChunks == 1 then
      var chosen := ChosenLine(Blocks(text), BudgetBytes(s));
      if chosen.Err? then Err(chosen.error)
      else if chosen.value.None? then Err("UnboundLocalError")
      else Ok(Words(chosen.value.value))
    else ChunkedIds(text)
  }

  // ------------------------------------------------------------ selection

  /**
   * `selected_index_ids`: the index ids of the chosen combinations, each
   * once, in the order first met. Ids are converted lazily, so a bad id
   * (ValueError) or an unknown combination (KeyError) stops the loop where
   * it is met.
   */
  function SelectedIds(tokens: seq<string>, combinations: map<int, seq<int>>): Result<seq<int>> {
    if |tokens| == 0 then Ok([])
    else
      var r := SelectedIds(tokens[..|tokens| - 1], combinations);
      var ids := Lookup(tokens[|tokens| - 1], combinations);
      if r.Err? then r else if ids.Err? then Err(ids.error) else Ok(AddAll(r.value, ids.value))
  }

  /** `index_combinations[int(token)]`. */
  function Lookup(token: string, combinations: map<int, seq<int>>): (r: Result<seq<int>>)
    ensures r.Err? ==> r.error == "ValueError" || r.error == "KeyError"
  {
    var id := ParseInt(token);
    if id.Err? then Err(id.error) else if id.value !in combinations then Err("KeyError") else Ok(combinations[id.value])
  }

  method SelectIds(tokens: seq<string>, combinations: map<int, seq<int>>) returns (r: Result<seq<int>>)
    ensures r == SelectedIds(tokens, combinations)
  {
    var selected: seq<int> := [];
    var i := 0;
    while i < |tokens|
      invariant 0 <= i <= |tokens|
      invariant SelectedIds(tokens[..i], combinations) == Ok(selected)
    {
      assert tokens[..i + 1][..i] == tokens[..i];
      var cId := ParseInt(tokens[i]);
      if cId.Err? {
        SelectedPrefixFailure(tokens, combinations, i + 1);
        return Err(cId.error);
      }
      if cId.value !in combinations {
        SelectedPrefixFailure(tokens, combinations, i + 1);
        return Err("KeyError");
      }
      assert Lookup(tokens[i], combinations) == Ok(combinations[cId.value]);
      selected := AddEach(selected, combinations[cId.value]);
      i := i + 1;
    }
    assert tokens[..i] == tokens;
    r := Ok(selected);
  }

  lemma {:induction false} SelectedPrefixFailure(tokens: seq<string>, combinations: map<int, seq<int>>, n: nat)
    requires n <= |tokens| && SelectedIds(tokens[..n], combinations).Err?
    ensures SelectedIds(tokens, combinations) == SelectedIds(tokens[..n], combinations)
    decreases |tokens| - n
  {
    if n < |tokens| {
      assert tokens[..n + 1][..n] == tokens[..n];
      SelectedPrefixFailure(tokens, combinations, n + 1);
    } else {
      assert tokens[..n] == tokens;
    }
  }

  /** The columns of an index, resolved by name; an unknown name is a KeyError. */
  function ResolveColumns(names: seq<string>, columns: map<string, Column>): Result<seq<Column>> {
    if forall k :: 0 <= k < |names| ==> names[k] in columns then
      Ok(seq(|names|, k requires 0 <= k < |names| && names[k] in columns => columns[names[k]]))
    else Err("KeyError")
  }

  /**
   * The loop over the selected ids: each id's size is added and its index
   * rebuilt from its resolved columns, until an unknown id or column name
   * (KeyError) or an index without columns (ValueError).
   */
  function Rebuilt(selected: seq<int>, indexes: map<int, IndexEntry>, columns: map<string, Column>):
    Result<(seq<Index>, int)>
  {
    if |selected| == 0 then Ok(([], 0))
    else
      var r := Rebuilt(selected[..|selected| - 1], indexes, columns);
      var id := selected[|selected| - 1];
      if r.Err? then r
      else if id !in indexes then Err("KeyError")
      else
        var cols := ResolveColumns(indexes[id].columnNames, columns);
        if cols.Err? then Err(cols.error)
        else
          var ix := NewIndex(cols.value);
          if ix.Err? then Err(ix.error) else Ok((r.value.0 + [ix.value], r.value.1 + indexes[id].estimatedSize))
  }

  /** The rebuilt indexes, provided their summed size fits the budget (an AssertionError otherwise). */
  function Solution(selected: seq<int>, indexes: map<int, IndexEntry>, columns: map<string, Column>, limit: int):
    Result<seq<Index>>
  {
    var r := Rebuilt(selected, indexes, columns);
    if r.Err? then Err(r.error) else if r.value.1 > limit then Err("AssertionError") else Ok(r.value.0)
  }

  method BuildSolution(selected: seq<int>, indexes: map<int, IndexEntry>, columns: map<string, Column>, limit: int)
    returns (r: Result<seq<Index>>)
    ensures r == Solution(selected, indexes, columns, limit)
  {
    var solution: seq<Index> := [];
    var selectedIndexSizes := 0;
    var i := 0;
    while i < |selected|
      invariant 0 <= i <= |selected|
      invariant Rebuilt(selected[..i], indexes, columns) == Ok((solution, selectedIndexSizes))
    {
      assert selected[..i + 1][..i] == selected[..i];
      var indexId := selected[i];
      if indexId !in indexes {
        RebuiltPrefixFailure(selected, indexes, columns, i + 1);
        return Err("KeyError");
      }
      selectedIndexSizes := selectedIndexSizes + indexes[indexId].estimatedSize;
      var names := indexes[indexId].columnNames;
      var indexColumns: seq<Column> := [];
      for j := 0 to |names|
        invariant forall k :: 0 <= k < j ==> names[k] in columns
        invariant indexColumns == seq(j, k requires 0 <= k < j && names[k] in columns => columns[names[k]])
      {
        if names[j] !in columns {
          RebuiltPrefixFailure(selected, indexes, columns, i + 1);
          return Err("KeyError");
        }
        indexColumns := indexColumns + [columns[names[j]]];
      }
      var index := NewIndex(indexColumns);
      if index.Err? {
        RebuiltPrefixFailure(selected, indexes, columns, i + 1);
        return Err(index.error);
      }
      solution := solution + [index.value];
      i := i + 1;
    }
    assert selected[..i] == selected;
    if selectedIndexSizes > limit {
      return Err("AssertionError");
    }
    r := Ok(solution);
  }

  lemma {:induction false} RebuiltPrefixFailure(selected: seq<int>, indexes: map<int, IndexEntry>,
                                                columns: map<string, Column>, n: nat)
    requires n <= |selected| && Rebuilt(selected[..n], indexes, columns).Err?
    ensures Rebuilt(selected, indexes, columns) == Rebuilt(selected[..n], indexes, columns)
    decreases |selected| - n
  {
    if n < |selected| {
      assert selected[..n + 1][..n] == selected[..n];
      RebuiltPrefixFailure(selected, indexes, columns, n + 1);
    } else {
      assert selected[..n] == selected;
    }
  }

  // ------------------------------------------------------------ the whole algorithm

  /** `_calculate_best_indexes` over the columns the benchmark case produced. */
  function BestIndexesFrom(s: Settings, indexSizes: seq<IndexEntry>, combinations: seq<CombinationEntry>,
                           columns: Result<map<string, Column>>, read: string -> string): Result<seq<Index>>
  {
    if columns.Err? then Err(columns.error)
    else
      var tokens := CombinationIdTexts(s, read);
      if tokens.Err? then Err(tokens.error)
      else
        var selected := SelectedIds(tokens.value, CombinationTable(combinations));
        if selected.Err? then Err(selected.error)
        else Solution(selected.value, IndexTable(indexSizes), columns.value, BudgetBytes(s))
  }

  method Calculate(s: Settings, indexSizes: seq<IndexEntry>, combinations: seq<CombinationEntry>,
                   columns: Result<map<string, Column>>, read: string -> string) returns (r: Result<seq<Index>>)
    ensures r == BestIndexesFrom(s, indexSizes, combinations, columns, read)
  {
    var indexes, indexCombinations := ReadTables(indexSizes, combinations);
    if columns.Err? {
      return Err(columns.error);
    }
    var tokens: seq<string>;
    var text := read(SolutionPath(s));
    if s.numberOfChunks == 1 {
      var chosen := ChooseBlock(Blocks(text), BudgetBytes(s));
      if chosen.Err? {
        return Err(chosen.error);
      }
      if chosen.value.None? {
        return Err("UnboundLocalError");
      }
      tokens := Words(chosen.value.value);
    } else {
      var chunked := ChunkedIds(text);
      if chunked.Err? {
        return Err(chunked.error);
      }
      tokens := chunked.value;
    }
    var selected := SelectIds(tokens, indexCombinations);
    if selected.Err? {
      return Err(selected.error);
    }
    r := BuildSolution(selected.value, indexes, columns.value, BudgetBytes(s));
  }

  /** `_calculate_best_indexes` as written, with the TPC-H column built by a wrong constructor call. */
  method CalculateBestIndexesAsWritten(s: Settings, indexSizes: seq<IndexEntry>, combinations: seq<CombinationEntry>,
                                       w: Workload, read: string -> string) returns (r: Result<seq<Index>>)
    ensures r == BestIndexesFrom(s, indexSizes, combinations, BenchmarkColumnsAsWritten(s, ColumnTable(w.queries)), read)
    ensures s.benchmarkName == "tpch" ==> r == Err("TypeError")
  {
    var columns := CollectColumns(w.queries);
    r := Calculate(s, indexSizes, combinations, BenchmarkColumnsAsWritten(s, columns), read);
  }

  /** `_calculate_best_indexes` with the TPC-H column placed on the table of `s_suppkey`. */
  method CalculateBestIndexes(s: Settings, indexSizes: seq<IndexEntry>, combinations: seq<CombinationEntry>,
                              w: Workload, read: string -> string) returns (r: Result<seq<Index>>)
    ensures r == BestIndexesFrom(s, indexSizes, combinations, BenchmarkColumns(s, ColumnTable(w.queries)), read)
  {
    var columns := CollectColumns(w.queries);
    r := Calculate(s, indexSizes, combinations, BenchmarkColumns(s, columns), read);
  }

  // ------------------------------------------------------------ properties

  /** A string of digits holds no point. */
  lemma DigitsHaveNoPoint(d: string)
    requires AllDigits(d)
    ensures !Contains(d, ".")
  {
    forall i: nat | i + 1 <= |d| ensures !OccursAt(d, ".", i) {
      assert d[i..i + 1][0] == d[i];
    }
  }

  /** Appending `k` zero digits multiplies by `10 ** k`. */
  lemma {:induction false} DigitsWithZeros(d: string, k: nat)
    requires AllDigits(d)
    ensures AllDigits(d + Zeros(k))
    ensures DigitsValue(d + Zeros(k)) == DigitsValue(d) * Pow10(k)
  {
    if k == 0 {
      assert d + Zeros(k) == d;
    } else {
      DigitsWithZeros(d, k - 1);
      var p := d + Zeros(k - 1);
      assert d + Zeros(k) == p + "0";
      DigitsWithZero(p);
      TimesTen(DigitsValue(d), k);
    }
  }

  /** Appending one zero digit multiplies by ten. */
  lemma DigitsWithZero(p: string)
    requires AllDigits(p)
    ensures AllDigits(p + "0")
    ensures DigitsValue(p + "0") == DigitsValue(p) * 10
  {
    assert (p + "0")[..|p|] == p;
  }

  lemma TimesTen(a: nat, k: nat)
    requires k > 0
    ensures a * Pow10(k - 1) * 10 == a * Pow10(k)
  {
  }

  /** A mantissa without a point is its digits. */
  lemma MantissaOfDigits(d: string)
    requires |d| > 0 && AllDigits(d)
    ensures Mantissa(d) == Some((d, ""))
  {
    DigitsHaveNoPoint(d);
  }

  /** A mantissa with a point at `k` splits there. */
  lemma MantissaOfPointed(u: string, k: nat)
    requires 0 < k < |u| && u[k] == '.' && AllDigits(u[..k]) && AllDigits(u[k + 1..])
    ensures Mantissa(u) == Some((u[..k], u[k + 1..]))
  {
    DigitsHaveNoPoint(u[..k]);
    assert u == u[..k] + ['.'] + u[k + 1..];
    FindUnitInJoin('.', u[..k], u[k + 1..]);
  }

  /** No exponent mark anywhere: the exponent position is the length. */
  lemma {:induction false} ExponentAtNone(s: string)
    requires forall i :: 0 <= i < |s| ==> s[i] != 'e' && s[i] != 'E'
    ensures ExponentAt(s) == |s|
  {
    if |s| > 0 {
      ExponentAtNone(s[1..]);
    }
  }

  /** The first exponent mark at `k`. */
  lemma {:induction false} ExponentAtFirst(s: string, k: nat)
    requires k < |s| && (s[k] == 'e' || s[k] == 'E')
    requires forall i :: 0 <= i < k ==> s[i] != 'e' && s[i] != 'E'
    ensures ExponentAt(s) == k
  {
    if k > 0 {
      ExponentAtFirst(s[1..], k - 1);
    }
  }

  /** Digits alone read back as their value. */
  lemma UnsignedFloatOfDigits(whole: string)
    requires |whole| > 0 && AllDigits(whole)
    ensures UnsignedFloatToNat(whole) == Ok(DigitsValue(whole))
  {
    MantissaOfDigits(whole);
    ExponentAtNone(whole);
    assert whole[..|whole|] == whole;
    assert IntegralDigits(whole, "", 0) == whole;
  }

  /** Digits, a point at `k` and digits read back as the value before the point. */
  lemma UnsignedFloatOfPointed(u: string, k: nat)
    requires 0 < k < |u| && u[k] == '.' && AllDigits(u[..k]) && AllDigits(u[k + 1..])
    ensures UnsignedFloatToNat(u) == Ok(DigitsValue(u[..k]))
  {
    MantissaOfPointed(u, k);
    forall i | 0 <= i < |u| ensures u[i] != 'e' && u[i] != 'E' {
      if i < k { assert u[i] == u[..k][i]; }
      else if i > k { assert u[i] == u[k + 1..][i - k - 1]; }
    }
    ExponentAtNone(u);
    assert u[..|u|] == u;
    assert IntegralDigits(u[..k], u[k + 1..], 0) == u[..k];
  }

  /** Digits up to `k`, then `e+` and the exponent's digits, without sign or padding. */
  lemma UnsignedScaled(u: string, k: nat)
    requires 0 < k && k + 2 < |u| && u[k] == 'e' && u[k + 1] == '+'
    requires AllDigits(u[..k]) && AllDigits(u[k + 2..])
    ensures UnsignedFloatToNat(u) == Ok(DigitsValue(u[..k]) * Pow10(DigitsValue(u[k + 2..])))
  {
    var d := u[..k];
    forall i | 0 <= i < k ensures u[i] != 'e' && u[i] != 'E' {
      assert u[i] == d[i];
    }
    ExponentAtFirst(u, k);
    MantissaOfDigits(d);
    var x := u[k + 1..];
    assert x[0] == '+' && x[1..] == u[k + 2..];
    var e := DigitsValue(u[k + 2..]);
    assert ExponentValue(x) == Some(e);
    DigitsWithZeros(d, e);
    assert IntegralDigits(d, "", e) == d + Zeros(e) by {
      if e == 0 {
        assert d + ""[..0] == d + Zeros(0);
      } else {
        assert d + "" + Zeros(e - 0) == d + Zeros(e);
      }
    }
  }

  /**
   * A storage budget in exponent form, as a solver may print it: digits,
   * `e+` and the exponent's digits read back as the number times that
   * power of ten.
   */
  lemma FloatToIntOfScaled(n: nat, x: string, t: string)
    requires |x| > 0 && AllDigits(x) && t == NatToString(n) + "e+" + x
    ensures FloatToInt(t) == Ok(n * Pow10(DigitsValue(x)))
  {
    var d := NatToString(n);
    DigitsOfNat(n);
    ScaledParts(d, x, t);
    DigitsUnpadded(x);
    FloatToIntScaledAt(t, |d|);
  }

  /** Where the parts of `d + "e+" + x` sit. */
  lemma ScaledParts(d: string, x: string, t: string)
    requires |x| > 0 && t == d + "e+" + x
    ensures t[..|d|] == d && t[|d|] == 'e' && t[|d| + 1] == '+' && t[|d| + 2..] == x
    ensures t[|t| - 1] == x[|x| - 1]
  {
  }

  /** The exponent form over its positions: the mark at `k`, the exponent's digits after `k + 1`. */
  lemma FloatToIntScaledAt(t: string, k: nat)
    requires 0 < k && k + 2 < |t| && t[k] == 'e' && t[k + 1] == '+'
    requires AllDigits(t[..k]) && AllDigits(t[k + 2..]) && !IsSpace(t[|t| - 1])
    ensures FloatToInt(t) == Ok(DigitsValue(t[..k]) * Pow10(DigitsValue(t[k + 2..])))
  {
    SignedScaled(t, k);
    assert t[0] == t[..k][0] && IsDigit(t[0]);
    FloatToIntUnpadded(t);
  }

  lemma SignedScaled(u: string, k: nat)
    requires 0 < k && k + 2 < |u| && u[k] == 'e' && u[k + 1] == '+'
    requires AllDigits(u[..k]) && AllDigits(u[k + 2..])
    ensures SignedFloatToInt(u) == Ok(DigitsValue(u[..k]) * Pow10(DigitsValue(u[k + 2..])))
  {
    UnsignedScaled(u, k);
    assert u[0] == u[..k][0] && IsDigit(u[0]);
  }

  /** `int(float("5e+08"))`: a budget of 500 MB in that form. */
  lemma FloatToIntOfFiveHundredMb(t: string)
    requires |t| == 5 && t[0] == '5' && t[1] == 'e' && t[2] == '+' && t[3] == '0' && t[4] == '8'
    ensures FloatToInt(t) == Ok(500000000)
  {
    assert t[..1] == [t[0]] && t[3..] == [t[3], t[4]];
    assert DigitsValue([t[0]]) == 5 by {
      assert [t[0]][..0] == [];
    }
    assert DigitsValue([t[3], t[4]]) == 8 by {
      assert [t[3], t[4]][..1] == [t[3]];
      assert [t[3]][..0] == [];
    }
    FloatToIntScaledAt(t, 1);
    assert Pow10(8) == 100000000;
  }

  lemma StripUnpadded(t: string)
    requires |t| > 0 && !IsSpace(t[0]) && !IsSpace(t[|t| - 1])
    ensures Strip(t) == t
  {
  }

  /** `FloatToInt` on text that needs no stripping and starts with a digit or a minus sign. */
  lemma FloatToIntUnpadded(t: string)
    requires |t| > 0 && (IsDigit(t[0]) || t[0] == '-') && !IsSpace(t[|t| - 1])
    ensures FloatToInt(t) == SignedFloatToInt(t)
  {
    StripUnpadded(t);
  }

  /** A numeral without sign reads back as its value, with or without a fraction. */
  lemma FloatToIntOfDigits(d: string)
    requires |d| > 0 && AllDigits(d)
    ensures FloatToInt(d) == Ok(DigitsValue(d))
  {
    SignedOfDigits(d);
    DigitsUnpadded(d);
    FloatToIntUnpadded(d);
  }

  lemma DigitsUnpadded(d: string)
    requires |d| > 0 && AllDigits(d)
    ensures IsDigit(d[0]) && !IsSpace(d[|d| - 1])
  {
    assert IsDigit(d[|d| - 1]);
  }

  lemma SignedOfDigits(d: string)
    requires |d| > 0 && AllDigits(d)
    ensures SignedFloatToInt(d) == Ok(DigitsValue(d))
  {
    UnsignedFloatOfDigits(d);
  }

  lemma FloatToIntOfFraction(d: string, fraction: string)
    requires |d| > 0 && AllDigits(d) && AllDigits(fraction)
    ensures FloatToInt(d + "." + fraction) == Ok(DigitsValue(d))
  {
    var u := d + "." + fraction;
    assert u[..|d|] == d && u[|d|] == '.' && u[|d| + 1..] == fraction;
    SignedOfPointed(u, |d|);
    assert u[0] == d[0] && IsDigit(d[0]);
    LastOfPointed(d, fraction);
    FloatToIntUnpadded(u);
  }

  lemma SignedOfPointed(u: string, k: nat)
    requires 0 < k < |u| && u[k] == '.' && AllDigits(u[..k]) && AllDigits(u[k + 1..])
    ensures SignedFloatToInt(u) == Ok(DigitsValue(u[..k]))
  {
    UnsignedFloatOfPointed(u, k);
    assert u[0] == u[..k][0] && IsDigit(u[0]);
  }

  lemma LastOfPointed(d: string, fraction: string)
    requires AllDigits(fraction)
    ensures var u := d + "." + fraction; !IsSpace(u[|u| - 1])
  {
    var u := d + "." + fraction;
    if |fraction| == 0 {
      assert u[|u| - 1] == '.';
    } else {
      assert u[|u| - 1] == fraction[|fraction| - 1];
      assert IsDigit(fraction[|fraction| - 1]);
    }
  }

  /** The same numeral after a minus sign reads back negated. */
  lemma FloatToIntOfNegated(t: string)
    requires |t| > 1 && t[0] == '-' && AllDigits(t[1..])
    ensures FloatToInt(t) == Ok(-(DigitsValue(t[1..]) as int))
  {
    SignedOfNegated(t);
    var d := t[1..];
    assert IsDigit(d[|d| - 1]);
    assert t[|t| - 1] == d[|d| - 1];
    FloatToIntUnpadded(t);
  }

  lemma SignedOfNegated(t: string)
    requires |t| > 1 && t[0] == '-' && AllDigits(t[1..])
    ensures SignedFloatToInt(t) == Ok(-(DigitsValue(t[1..]) as int))
  {
    UnsignedFloatOfDigits(t[1..]);
  }

  lemma FloatToIntOfNegatedFraction(t: string, fraction: string)
    requires |t| > 1 && t[0] == '-' && AllDigits(t[1..]) && AllDigits(fraction)
    ensures FloatToInt(t + "." + fraction) == Ok(-(DigitsValue(t[1..]) as int))
  {
    SignedOfNegatedFraction(t, fraction);
    LastOfPointed(t, fraction);
    FloatToIntUnpadded(t + "." + fraction);
  }

  lemma {:induction false} SignedOfNegatedFraction(t: string, fraction: string)
    requires |t| > 1 && t[0] == '-' && AllDigits(t[1..]) && AllDigits(fraction)
    ensures SignedFloatToInt(t + "." + fraction) == Ok(-(DigitsValue(t[1..]) as int))
  {
    SignedOfNegatedPointed(t, fraction, t + "." + fraction);
  }

  /** The same, with the joined text `u` as a variable of its own. */
  lemma {:induction false} SignedOfNegatedPointed(t: string, fraction: string, u: string)
    requires |t| > 1 && t[0] == '-' && AllDigits(t[1..]) && AllDigits(fraction)
    requires u == t + "." + fraction
    ensures SignedFloatToInt(u) == Ok(-(DigitsValue(t[1..]) as int))
  {
    PointedAfterSign(t, fraction, u);
    SignedOfNegative(u, DigitsValue(t[1..]));
  }

  /** What follows the sign of `t + "." + fraction` reads as the digits of `t`. */
  lemma {:induction false} PointedAfterSign(t: string, fraction: string, u: string)
    requires |t| > 1 && AllDigits(t[1..]) && AllDigits(fraction)
    requires u == t + "." + fraction
    ensures UnsignedFloatToNat(u[1..]) == Ok(DigitsValue(t[1..]))
  {
    var w := u[1..];
    assert w[..|t| - 1] == t[1..] && w[|t| - 1] == '.' && w[|t|..] == fraction;
    UnsignedFloatOfPointed(w, |t| - 1);
  }

  /** A leading minus sign negates what the rest reads as. */
  lemma SignedOfNegative(u: string, v: nat)
    requires |u| > 0 && u[0] == '-' && UnsignedFloatToNat(u[1..]) == Ok(v)
    ensures SignedFloatToInt(u) == Ok(-(v as int))
  {
  }

  /**
   * A storage budget printed as an integer reads back as that integer,
   * and a fraction after it is cut off: `int(float(s))` truncates toward
   * zero, for negative budgets too.
   */
  lemma FloatToIntOfInt(n: int, fraction: string)
    requires AllDigits(fraction)
    ensures FloatToInt(IntToString(n)) == Ok(n)
    ensures FloatToInt(IntToString(n) + "." + fraction) == Ok(n)
  {
    if n < 0 {
      FloatToIntOfNegativeInt(n, fraction);
    } else {
      FloatToIntOfNat(n, fraction);
    }
  }

  lemma FloatToIntOfNat(n: nat, fraction: string)
    requires AllDigits(fraction)
    ensures FloatToInt(NatToString(n)) == Ok(n)
    ensures FloatToInt(NatToString(n) + "." + fraction) == Ok(n)
  {
    var t := NatToString(n);
    assert AllDigits(t);
    DigitsOfNat(n);
    FloatToIntOfDigits(t);
    FloatToIntOfFraction(t, fraction);
  }

  lemma FloatToIntOfNegativeInt(n: int, fraction: string)
    requires n < 0 && AllDigits(fraction)
    ensures FloatToInt(IntToString(n)) == Ok(n)
    ensures FloatToInt(IntToString(n) + "." + fraction) == Ok(n)
  {
    var t := NegativeNumeral(n);
    FloatToIntOfNegated(t);
    FloatToIntOfNegatedFraction(t, fraction);
  }

  /** `str(n)` for a negative `n` is a minus sign and the digits of `-n`. */
  lemma NegativeNumeral(n: int) returns (t: string)
    requires n < 0
    ensures t == IntToString(n) && |t| > 1 && t[0] == '-' && AllDigits(t[1..])
    ensures DigitsValue(t[1..]) == -n
  {
    var m: nat := -n;
    var d := NatToString(m);
    t := "-" + d;
    assert t[1..] == d;
    DigitsOfNat(m);
  }

  /** The index table holds exactly the ids of the entries. */
  lemma {:induction false} IndexTableKeys(entries: seq<IndexEntry>)
    ensures forall id :: id in IndexTable(entries) <==> exists k :: 0 <= k < |entries| && entries[k].indexId == id
  {
    if |entries| > 0 {
      var init := entries[..|entries| - 1];
      IndexTableKeys(init);
      forall id | id in IndexTable(entries) ensures exists k :: 0 <= k < |entries| && entries[k].indexId == id {
        if id != entries[|entries| - 1].indexId {
          assert id in IndexTable(init);
          var k :| 0 <= k < |init| && init[k].indexId == id;
          assert entries[k] == init[k];
        }
      }
      forall id | exists k :: 0 <= k < |entries| && entries[k].indexId == id ensures id in IndexTable(entries) {
        var k :| 0 <= k < |entries| && entries[k].indexId == id;
        if k < |init| {
          assert init[k] == entries[k];
        }
      }
    }
  }

  /** Each id holds the last entry of that id. */
  lemma {:induction false} IndexTableLastWins(entries: seq<IndexEntry>)
    ensures forall k :: 0 <= k < |entries| ==> entries[k].indexId in IndexTable(entries)
    ensures forall k ::
      (0 <= k < |entries| && forall j :: k < j < |entries| ==> entries[j].indexId != entries[k].indexId) ==>
      IndexTable(entries)[entries[k].indexId] == entries[k]
  {
    IndexTableKeys(entries);
    if |entries| > 0 {
      var init := entries[..|entries| - 1];
      IndexTableLastWins(init);
      forall k | 0 <= k < |entries| - 1 && forall j :: k < j < |entries| ==> entries[j].indexId != entries[k].indexId
        ensures IndexTable(entries)[entries[k].indexId] == entries[k]
      {
        assert init[k] == entries[k];
        assert forall j :: k < j < |init| ==> init[j] == entries[j];
      }
    }
  }

  /** The same for the combination table: ids of the entries, each with the index ids of its last entry. */
  lemma CombinationTableMeaning(entries: seq<CombinationEntry>)
    ensures forall id :: id in CombinationTable(entries) <==> exists k :: 0 <= k < |entries| && entries[k].combinationId == id
    ensures forall k ::
      (0 <= k < |entries| && forall j :: k < j < |entries| ==> entries[j].combinationId != entries[k].combinationId) ==>
      CombinationTable(entries)[entries[k].combinationId] == entries[k].indexIds
  {
    CombinationTableKeys(entries);
    CombinationTableLastWins(entries);
  }

  lemma {:induction false} CombinationTableKeys(entries: seq<CombinationEntry>)
    ensures forall id :: id in CombinationTable(entries) <==> exists k :: 0 <= k < |entries| && entries[k].combinationId == id
  {
    if |entries| > 0 {
      var init := entries[..|entries| - 1];
      CombinationTableKeys(init);
      forall id | id in CombinationTable(entries)
        ensures exists k :: 0 <= k < |entries| && entries[k].combinationId == id
      {
        if id != entries[|entries| - 1].combinationId {
          assert id in CombinationTable(init);
          var k :| 0 <= k < |init| && init[k].combinationId == id;
          assert entries[k] == init[k];
        }
      }
      forall id | exists k :: 0 <= k < |entries| && entries[k].combinationId == id ensures id in CombinationTable(entries) {
        var k :| 0 <= k < |entries| && entries[k].combinationId == id;
        if k < |init| {
          assert init[k] == entries[k];
        }
      }
    }
  }

  lemma {:induction false} CombinationTableLastWins(entries: seq<CombinationEntry>)
    ensures forall k :: 0 <= k < |entries| ==> entries[k].combinationId in CombinationTable(entries)
    ensures forall k ::
      (0 <= k < |entries| && forall j :: k < j < |entries| ==> entries[j].combinationId != entries[k].combinationId) ==>
      CombinationTable(entries)[entries[k].combinationId] == entries[k].indexIds
  {
    CombinationTableKeys(entries);
    if |entries| > 0 {
      var init := entries[..|entries| - 1];
      CombinationTableLastWins(init);
      CombinationTableKeys(init);
      forall k | 0 <= k < |entries| - 1 && forall j :: k < j < |entries| ==> entries[j].combinationId != entries[k].combinationId
        ensures CombinationTable(entries)[entries[k].combinationId] == entries[k].indexIds
      {
        assert init[k] == entries[k];
        assert forall j :: k < j < |init| ==> init[j] == entries[j];
      }
    }
  }

  /** Every column is stored under its own name. */
  ghost predicate ByName(columns: map<string, Column>) {
    forall n :: n in columns ==> columns[n].name == n
  }

  lemma {:induction false} AddColumnsMeaning(m: map<string, Column>, cols: seq<Column>)
    ensures ByName(m) ==> ByName(AddColumns(m, cols))
    ensures forall n :: n in AddColumns(m, cols) <==> n in m || exists j :: 0 <= j < |cols| && cols[j].name == n
  {
    if |cols| > 0 {
      var init := cols[..|cols| - 1];
      AddColumnsMeaning(m, init);
      forall n | n in AddColumns(m, cols) && n !in m ensures exists j :: 0 <= j < |cols| && cols[j].name == n {
        if n != cols[|cols| - 1].name {
          var j :| 0 <= j < |init| && init[j].name == n;
          assert cols[j] == init[j];
        }
      }
      forall n | exists j :: 0 <= j < |cols| && cols[j].name == n ensures n in AddColumns(m, cols) {
        var j :| 0 <= j < |cols| && cols[j].name == n;
        if j < |init| {
          assert init[j] == cols[j];
        }
      }
    }
  }

  /** A column is found under a name exactly when some query uses a column of that name, and it carries that name. */
  lemma {:induction false} ColumnTableMeaning(queries: seq<Query>)
    ensures ByName(ColumnTable(queries))
    ensures forall n :: n in ColumnTable(queries) <==>
      exists k, j :: 0 <= k < |queries| && 0 <= j < |queries[k].columns| && queries[k].columns[j].name == n
  {
    if |queries| > 0 {
      var init := queries[..|queries| - 1];
      var last := queries[|queries| - 1];
      ColumnTableMeaning(init);
      AddColumnsMeaning(ColumnTable(init), last.columns);
      forall n | n in ColumnTable(queries)
        ensures exists k, j :: 0 <= k < |queries| && 0 <= j < |queries[k].columns| && queries[k].columns[j].name == n
      {
        if n in ColumnTable(init) {
          var k, j :| 0 <= k < |init| && 0 <= j < |init[k].columns| && init[k].columns[j].name == n;
          assert queries[k] == init[k];
        } else {
          var j :| 0 <= j < |last.columns| && last.columns[j].name == n;
          assert queries[|queries| - 1] == last;
        }
      }
      forall n | exists k, j :: 0 <= k < |queries| && 0 <= j < |queries[k].columns| && queries[k].columns[j].name == n
        ensures n in ColumnTable(queries)
      {
        var k, j :| 0 <= k < |queries| && 0 <= j < |queries[k].columns| && queries[k].columns[j].name == n;
        if k < |init| {
          assert init[k] == queries[k];
        }
      }
    }
  }

  /**
   * The TPC-H case: as written it always fails with a TypeError; as
   * intended it adds `s_acctbal` on the table of `s_suppkey`, leaves every
   * other column as it was, and keeps every column under its own name.
   */
  lemma BenchmarkColumnsFixed(s: Settings, columns: map<string, Column>)
    ensures s.benchmarkName == "tpch" ==> BenchmarkColumnsAsWritten(s, columns) == Err("TypeError")
    ensures s.benchmarkName != "tpch" ==> BenchmarkColumns(s, columns) == BenchmarkColumnsAsWritten(s, columns) == Ok(columns)
    ensures (s.benchmarkName == "tpch" ==>
      (BenchmarkColumns(s, columns).Ok? <==> "s_suppkey" in columns))
    ensures var r := BenchmarkColumns(s, columns);
      r.Ok? && s.benchmarkName == "tpch" ==>
        r.value.Keys == columns.Keys + {"s_acctbal"} &&
        r.value["s_acctbal"].table == columns["s_suppkey"].table &&
        forall n :: n in columns && n != "s_acctbal" ==> r.value[n] == columns[n]
    ensures ByName(columns) && BenchmarkColumns(s, columns).Ok? ==> ByName(BenchmarkColumns(s, columns).value)
  {
  }

  // ------------------------------------------------------------ selection, solution

  /** The combination a token names, or nothing if it is not a known id. */
  function CombinationOfToken(token: string, combinations: map<int, seq<int>>): seq<int> {
    var ids := Lookup(token, combinations);
    if ids.Ok? then ids.value else []
  }

  predicate TokenKnown(token: string, combinations: map<int, seq<int>>) {
    Lookup(token, combinations).Ok?
  }

  /** Every token is a known combination id. */
  predicate AllKnown(tokens: seq<string>, combinations: map<int, seq<int>>) {
    forall k :: 0 <= k < |tokens| ==> TokenKnown(tokens[k], combinations)
  }

  lemma AllKnownSnoc(tokens: seq<string>, combinations: map<int, seq<int>>)
    requires |tokens| > 0
    ensures AllKnown(tokens, combinations) <==>
      AllKnown(tokens[..|tokens| - 1], combinations) && TokenKnown(tokens[|tokens| - 1], combinations)
  {
    assert tokens == tokens[..|tokens| - 1] + [tokens[|tokens| - 1]];
    EverySnoc(tokens[..|tokens| - 1], tokens[|tokens| - 1], t => TokenKnown(t, combinations));
  }

  lemma EverySnoc<T>(init: seq<T>, x: T, p: T -> bool)
    ensures var s := init + [x];
      (forall k :: 0 <= k < |s| ==> p(s[k])) <==> (forall k :: 0 <= k < |init| ==> p(init[k])) && p(x)
  {
    var s := init + [x];
    if (forall k :: 0 <= k < |init| ==> p(init[k])) && p(x) {
      forall k | 0 <= k < |s| ensures p(s[k]) {
        if k < |init| {
          assert s[k] == init[k];
        }
      }
    }
    if forall k :: 0 <= k < |s| ==> p(s[k]) {
      assert s[|init|] == x;
      forall k | 0 <= k < |init| ensures p(init[k]) {
        assert s[k] == init[k];
      }
    }
  }

  /**
   * The selection succeeds exactly when every token is a known combination
   * id; a failure is a ValueError or a KeyError.
   */
  lemma {:induction false} SelectedIdsSucceed(tokens: seq<string>, combinations: map<int, seq<int>>)
    ensures SelectedIds(tokens, combinations).Ok? <==> AllKnown(tokens, combinations)
    ensures var r := SelectedIds(tokens, combinations);
      r.Err? ==> r.error == "ValueError" || r.error == "KeyError"
  {
    if |tokens| > 0 {
      SelectedIdsSucceed(tokens[..|tokens| - 1], combinations);
      AllKnownSnoc(tokens, combinations);
    }
  }

  /** Some token names a combination holding `x`. */
  ghost predicate Named(tokens: seq<string>, combinations: map<int, seq<int>>, x: int) {
    exists k :: 0 <= k < |tokens| && x in CombinationOfToken(tokens[k], combinations)
  }

  lemma NamedSnoc(tokens: seq<string>, t: string, combinations: map<int, seq<int>>, x: int)
    ensures Named(tokens + [t], combinations, x) <==> Named(tokens, combinations, x) || x in CombinationOfToken(t, combinations)
  {
    var all := tokens + [t];
    if Named(all, combinations, x) {
      var k :| 0 <= k < |all| && x in CombinationOfToken(all[k], combinations);
      if k < |tokens| {
        assert all[k] == tokens[k];
      }
    }
    if Named(tokens, combinations, x) {
      var k :| 0 <= k < |tokens| && x in CombinationOfToken(tokens[k], combinations);
      assert all[k] == tokens[k];
    }
    if x in CombinationOfToken(t, combinations) {
      assert all[|tokens|] == t;
    }
  }

  /** A successful selection holds each index id of the named combinations once, and nothing else. */
  lemma {:induction false} SelectedIdsContents(tokens: seq<string>, combinations: map<int, seq<int>>)
    ensures var r := SelectedIds(tokens, combinations);
      r.Ok? ==> Distinct(r.value) && forall x :: x in r.value <==> Named(tokens, combinations, x)
  {
    if |tokens| > 0 {
      var init := tokens[..|tokens| - 1];
      var t := tokens[|tokens| - 1];
      assert tokens == init + [t];
      SelectedIdsContents(init, combinations);
      var r := SelectedIds(init, combinations);
      if r.Ok? && TokenKnown(t, combinations) {
        AddAllMeaning(r.value, Lookup(t, combinations).value);
        forall x ensures Named(tokens, combinations, x) <==> Named(init, combinations, x) || x in CombinationOfToken(t, combinations) {
          NamedSnoc(init, t, combinations, x);
        }
      }
    }
  }

  /** An index id the solution can be rebuilt from: known, with at least one column, every column name known. */
  predicate Buildable(id: int, indexes: map<int, IndexEntry>, columns: map<string, Column>) {
    id in indexes && |indexes[id].columnNames| > 0 &&
    forall j :: 0 <= j < |indexes[id].columnNames| ==> indexes[id].columnNames[j] in columns
  }

  /** The summed estimated size of the selected indexes. */
  function EstimatedTotal(selected: seq<int>, indexes: map<int, IndexEntry>): int {
    if |selected| == 0 then 0
    else
      EstimatedTotal(selected[..|selected| - 1], indexes) +
      (if selected[|selected| - 1] in indexes then indexes[selected[|selected| - 1]].estimatedSize else 0)
  }

  lemma {:induction false} RebuiltMeaning(selected: seq<int>, indexes: map<int, IndexEntry>, columns: map<string, Column>)
    ensures Rebuilt(selected, indexes, columns).Ok? <==> forall k :: 0 <= k < |selected| ==> Buildable(selected[k], indexes, columns)
    ensures var r := Rebuilt(selected, indexes, columns);
      r.Ok? ==>
        (|r.value.0| == |selected| && r.value.1 == EstimatedTotal(selected, indexes) &&
         forall k :: 0 <= k < |selected| ==>
           r.value.0[k] == Index(ResolveColumns(indexes[selected[k]].columnNames, columns).value))
    ensures var r := Rebuilt(selected, indexes, columns);
      r.Err? ==> r.error == "KeyError" || r.error == "ValueError"
  {
    if |selected| > 0 {
      var init := selected[..|selected| - 1];
      RebuiltMeaning(init, indexes, columns);
      forall k | 0 <= k < |init| ensures selected[k] == init[k] { }
      if Rebuilt(init, indexes, columns).Err? {
        var k :| 0 <= k < |init| && !Buildable(init[k], indexes, columns);
        assert selected[k] == init[k];
      }
    }
  }

  /**
   * The solution exists exactly when every selected id can be rebuilt and
   * their estimated sizes together fit the limit; it then has one index per
   * selected id, in order, whose columns are those the id's names denote.
   * When every column is stored under its own name, the rebuilt index has
   * exactly the column names of the input.
   */
  lemma SolutionMeaning(selected: seq<int>, indexes: map<int, IndexEntry>, columns: map<string, Column>, limit: int)
    ensures var r := Solution(selected, indexes, columns, limit);
      r.Ok? <==>
        ((forall k :: 0 <= k < |selected| ==> Buildable(selected[k], indexes, columns)) &&
         EstimatedTotal(selected, indexes) <= limit)
    ensures var r := Solution(selected, indexes, columns, limit);
      r.Ok? ==>
        (|r.value| == |selected| &&
         forall k :: 0 <= k < |selected| ==>
           |r.value[k].columns| == |indexes[selected[k]].columnNames| > 0 &&
           forall j :: 0 <= j < |r.value[k].columns| ==> r.value[k].columns[j] == columns[indexes[selected[k]].columnNames[j]])
    ensures var r := Solution(selected, indexes, columns, limit);
      r.Ok? && ByName(columns) ==>
        forall k, j :: 0 <= k < |selected| && 0 <= j < |r.value[k].columns| ==>
          r.value[k].columns[j].name == indexes[selected[k]].columnNames[j]
    ensures var r := Solution(selected, indexes, columns, limit);
      r.Err? ==> r.error == "KeyError" || r.error == "ValueError" || r.error == "AssertionError"
  {
    RebuiltMeaning(selected, indexes, columns);
  }

  // ------------------------------------------------------------ the block scan

  /** Every block before `i` parses and is for another budget. */
  ghost predicate Passed(blocks: seq<string>, i: nat, target: int)
    requires i <= |blocks|
  {
    forall j :: 0 <= j < i ==> ParseBlock(blocks[j]).Ok? && ParseBlock(blocks[j]).value.0 != target
  }

  lemma PassedShift(blocks: seq<string>, target: int)
    requires |blocks| > 0 && ParseBlock(blocks[0]).Ok? && ParseBlock(blocks[0]).value.0 != target
    ensures forall i :: 0 <= i <= |blocks| - 1 ==> (Passed(blocks[1..], i, target) <==> Passed(blocks, i + 1, target))
  {
    forall i | 0 <= i <= |blocks| - 1 ensures Passed(blocks[1..], i, target) <==> Passed(blocks, i + 1, target) {
      if Passed(blocks[1..], i, target) {
        forall j | 0 <= j < i + 1 ensures ParseBlock(blocks[j]).Ok? && ParseBlock(blocks[j]).value.0 != target {
          if j > 0 {
            assert blocks[j] == blocks[1..][j - 1];
          }
        }
      }
      if Passed(blocks, i + 1, target) {
        forall j | 0 <= j < i ensures ParseBlock(blocks[1..][j]).Ok? && ParseBlock(blocks[1..][j]).value.0 != target {
          assert blocks[1..][j] == blocks[j + 1];
        }
      }
    }
  }

  /** The scan gives the ids line of the first block for the budget, after blocks that all parse. */
  lemma {:induction false} ChosenLineFound(blocks: seq<string>, target: int)
    ensures var r := ChosenLine(blocks, target);
      r.Ok? && r.value.Some? ==>
        exists i :: 0 <= i < |blocks| && Passed(blocks, i, target) && ParseBlock(blocks[i]) == Ok((target, r.value.value))
  {
    if |blocks| > 0 {
      var b := ParseBlock(blocks[0]);
      if b.Ok? && b.value.0 != target {
        var rest := blocks[1..];
        ChosenLineFound(rest, target);
        PassedShift(blocks, target);
        var r := ChosenLine(rest, target);
        if r.Ok? && r.value.Some? {
          var i :| 0 <= i < |rest| && Passed(rest, i, target) && ParseBlock(rest[i]) == Ok((target, r.value.value));
          assert blocks[i + 1] == rest[i];
        }
      } else {
        assert Passed(blocks, 0, target);
      }
    }
  }

  /** The scan gives nothing exactly when every block parses and none is for the budget. */
  lemma {:induction false} ChosenLineNone(blocks: seq<string>, target: int)
    ensures ChosenLine(blocks, target) == Ok(None) <==> Passed(blocks, |blocks|, target)
  {
    if |blocks| > 0 {
      var b := ParseBlock(blocks[0]);
      if b.Ok? && b.value.0 != target {
        ChosenLineNone(blocks[1..], target);
        PassedShift(blocks, target);
      } else {
        assert !Passed(blocks, |blocks|, target);
      }
    }
  }

  /** A failing scan fails with the error of the first block that does not parse. */
  lemma {:induction false} ChosenLineFails(blocks: seq<string>, target: int)
    ensures var r := ChosenLine(blocks, target);
      r.Err? ==> exists i :: 0 <= i < |blocks| && Passed(blocks, i, target) && ParseBlock(blocks[i]) == Err(r.error)
  {
    if |blocks| > 0 {
      var b := ParseBlock(blocks[0]);
      if b.Ok? && b.value.0 != target {
        var rest := blocks[1..];
        ChosenLineFails(rest, target);
        PassedShift(blocks, target);
        var r := ChosenLine(rest, target);
        if r.Err? {
          var i :| 0 <= i < |rest| && Passed(rest, i, target) && ParseBlock(rest[i]) == Err(r.error);
          assert blocks[i + 1] == rest[i];
        }
      } else {
        assert Passed(blocks, 0, target);
      }
    }
  }

  /** A block written as six lines is read back as those lines: its budget from the first, its ids from the sixth. */
  lemma ParseBlockOfLines(lines: seq<string>)
    requires |lines| == 6 && forall k :: 0 <= k < 6 ==> !Contains(lines[k], "\n")
    ensures var budget := FloatToInt(Last(Split(lines[0], " = ")));
      ParseBlock(Join("\n", lines)) == if budget.Ok? then Ok((budget.value, lines[5])) else Err(budget.error)
  {
    SplitJoinUnit('\n', lines);
  }

  // ------------------------------------------------------------ end to end

  /**
   * What a successful `_calculate_best_indexes` returns: one index per id
   * of the chosen combinations, each id once, their estimated sizes within
   * the budget, and every index built from exactly the column names the
   * ILP input lists for it.
   */
  lemma BestIndexesMeaning(s: Settings, indexSizes: seq<IndexEntry>, combinations: seq<CombinationEntry>,
                           columns: Result<map<string, Column>>, read: string -> string)
    ensures var r := BestIndexesFrom(s, indexSizes, combinations, columns, read);
      r.Ok? ==>
        columns.Ok? && CombinationIdTexts(s, read).Ok? &&
        SelectedIds(CombinationIdTexts(s, read).value, CombinationTable(combinations)).Ok?
    ensures var r := BestIndexesFrom(s, indexSizes, combinations, columns, read);
      r.Ok? ==>
        var tokens := CombinationIdTexts(s, read).value;
        var selected := SelectedIds(tokens, CombinationTable(combinations)).value;
        var indexes := IndexTable(indexSizes);
        Distinct(selected) && (forall x :: x in selected <==> Named(tokens, CombinationTable(combinations), x)) &&
        |r.value| == |selected| && EstimatedTotal(selected, indexes) <= BudgetBytes(s) &&
        (forall k :: 0 <= k < |selected| ==> selected[k] in indexes && Valid(r.value[k])) &&
        (ByName(columns.value) ==>
          forall k :: 0 <= k < |selected| ==> ColumnNames(r.value[k]) == indexes[selected[k]].columnNames)
  {
    var r := BestIndexesFrom(s, indexSizes, combinations, columns, read);
    if r.Ok? {
      var tokens := CombinationIdTexts(s, read).value;
      var selected := SelectedIds(tokens, CombinationTable(combinations)).value;
      var indexes := IndexTable(indexSizes);
      SelectedIdsContents(tokens, CombinationTable(combinations));
      SolutionMeaning(selected, indexes, columns.value, BudgetBytes(s));
      forall k | 0 <= k < |selected| ensures Valid(r.value[k]) {
        assert |r.value[k].columns| > 0;
      }
      if ByName(columns.value) {
        forall k | 0 <= k < |selected| ensures ColumnNames(r.value[k]) == indexes[selected[k]].columnNames {
          assert |ColumnNames(r.value[k])| == |indexes[selected[k]].columnNames|;
        }
      }
    }
  }

  /**
   * With the TPC-H column fixed, the columns are always stored under their
   * own names, so a successful run rebuilds every index with exactly the
   * column names of the ILP input; as written, a TPC-H run never succeeds.
   */
  lemma CalculatedColumnsAsListed(s: Settings, indexSizes: seq<IndexEntry>, combinations: seq<CombinationEntry>,
                                  w: Workload, read: string -> string)
    ensures var columns := BenchmarkColumns(s, ColumnTable(w.queries));
      columns.Ok? ==> ByName(columns.value)
    ensures s.benchmarkName == "tpch" ==>
      BestIndexesFrom(s, indexSizes, combinations, BenchmarkColumnsAsWritten(s, ColumnTable(w.queries)), read) == Err("TypeError")
  {
    ColumnTableMeaning(w.queries);
    BenchmarkColumnsFixed(s, ColumnTable(w.queries));
  }
}
