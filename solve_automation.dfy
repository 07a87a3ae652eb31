/**
 * cophy_tools/solve_automation.py: the AMPL model and run files for the
 * CoPhy solver, as the text written, and the budget conversion. The
 * solver call itself is not part of this model.
 */
module SolveAutomation {
  import opened Common

  /** The model text before the budget, line by line. */
  const ModelPrefixLines: seq<string> := [
    "\n",
    "set QUERIES;\n",
    "param NUMBER_OF_INDEXES integer;\n",
    "param NUMBER_OF_INDEX_COMBINATIONS integer;\n",
    "\n",
    "set INDEXES = 1 .. NUMBER_OF_INDEXES;\n",
    "# 0 represents no index\n",
    "set COMBINATIONS = 0 .. NUMBER_OF_INDEX_COMBINATIONS;\n"]

  /** The model text after the budget, line by line. */
  const ModelSuffixLines: seq<string> := [
    "\n",
    "    set indexes_per_combination {COMBINATIONS};\n",
    "\n",
    "param size {INDEXES}; # size of index\n",
    "param costs {QUERIES, COMBINATIONS} default 99999999999999; # costs of combination for query\n",
    "\n",
    "var x {INDEXES} binary; # index is created\n",
    "var y {COMBINATIONS} binary; # combination is applicable\n",
    "var z {COMBINATIONS, QUERIES} binary; # combination is used for query\n",
    "\n",
    "\n",
    "minimize overall_costs_of_queries: sum {c in COMBINATIONS, q in QUERIES} costs[q, c] * z[c, q];\n",
    "\n",
    "subject to one_combination_per_query {q in QUERIES}: 1 = sum {c in COMBINATIONS} z[c, q];\n",
    "subject to applicable_combination {c in COMBINATIONS}: sum {i in indexes_per_combination[c]} x[i] >= " +
    "card(indexes_per_combination[c]) * y[c];\n",
    "subject to usable_combination {c in COMBINATIONS, q in QUERIES}: z[c, q] <= y[c];\n",
    "subject to memory_consumption: sum {i in INDEXES} x[i] * size[i] <= storage_budget;\n"]

  /** The model text before the budget. */
  function ModelPrefix(): string {
    Join("", ModelPrefixLines)
  }

  /** The model text after the budget. */
  function ModelSuffix(): string {
    Join("", ModelSuffixLines)
  }

  const BudgetKey: string := "param storage_budget:= "

  /** The text of `model_gen`. */
  function ModelText(budget: int): string {
    ModelPrefix() + BudgetKey + IntToString(budget) + ";" + ModelSuffix()
  }

  /** `model_gen`: the text it writes to the model file, and returns. */
  method ModelGen(budget: int) returns (written: string, returned: string)
    ensures written == ModelText(budget) && returned == written
  {
    var model := ModelPrefix();
    model := model + BudgetKey + IntToString(budget) + ";";
    model := model + ModelSuffix();
    written := model;
    returned := model;
  }

  /** A mark that does not occur before it is found right there. */
  lemma FindFirstMark(a: string, c: char, b: string)
    requires forall k :: 0 <= k < |a| ==> a[k] != c
    ensures Find(a + [c] + b, [c]) == |a|
  {
    var s := a + [c] + b;
    assert OccursAt(s, [c], |a|);
    forall j: nat | j < |a| ensures !OccursAt(s, [c], j) {
      assert s[j] == a[j];
    }
  }

  /** `str(n)` holds no ';'. */
  lemma NoSemicolonInNumber(n: int)
    ensures forall k :: 0 <= k < |IntToString(n)| ==> IntToString(n)[k] != ';'
  {
    if n < 0 {
      assert IntToString(n) == "-" + NatToString(-n);
    }
  }

  /**
   * A number written between a key and ';' is read back from the text
   * after the key, up to the first ';', whatever surrounds it.
   */
  lemma NumberReadBack(prefix: string, key: string, n: int, suffix: string)
    ensures |prefix| + |key| <= |prefix + key + IntToString(n) + ";" + suffix|
    ensures (prefix + key + IntToString(n) + ";" + suffix)[..|prefix|] == prefix
    ensures (prefix + key + IntToString(n) + ";" + suffix)[|prefix|..|prefix| + |key|] == key
    ensures var rest := (prefix + key + IntToString(n) + ";" + suffix)[|prefix| + |key|..];
      Find(rest, ";") == |IntToString(n)| && ParseInt(rest[..|IntToString(n)|]) == Ok(n) &&
      rest[|IntToString(n)| + 1..] == suffix
  {
    var digits := IntToString(n);
    var text := prefix + key + IntToString(n) + ";" + suffix;
    assert text == prefix + key + (digits + [';'] + suffix);
    var rest := text[|prefix| + |key|..];
    assert rest == digits + [';'] + suffix;
    NoSemicolonInNumber(n);
    FindFirstMark(digits, ';', suffix);
    assert rest[..|digits|] == digits;
    ParseIntOfInt(n);
  }

  /**
   * The budget can be read back from the model text: after the fixed
   * prefix and `param storage_budget:= ` comes the budget in decimal up
   * to the first ';', followed by the fixed suffix.
   */
  lemma ModelTextBudget(budget: int)
    ensures var text, start := ModelText(budget), |ModelPrefix()| + |BudgetKey|;
      start <= |text| && text[..|ModelPrefix()|] == ModelPrefix() && text[|ModelPrefix()|..start] == BudgetKey &&
      var rest := text[start..];
      var end := Find(rest, ";");
      0 <= end && ParseInt(rest[..end]) == Ok(budget) && rest[end + 1..] == ModelSuffix()
  {
    NumberReadBack(ModelPrefix(), BudgetKey, budget, ModelSuffix());
    assert ModelText(budget) == ModelPrefix() + BudgetKey + IntToString(budget) + ";" + ModelSuffix();
  }

  /** The text of `generate_run_file`. */
  function RunText(solverPath: string): string {
    SolverKey + solverPath + "';" + RunTail
  }

  const SolverKey: string := "option solver '"

  /** The run text after the solver line. */
  const RunTail: string := "\nsolve;\noption display_1col 10000000000000000000000000;\ndisplay x;\ndisplay y;\ndisplay z;"

  /** `generate_run_file`: the text it writes to the run file, and returns. */
  method GenerateRunFile(solverPath: string) returns (written: string, returned: string)
    ensures written == RunText(solverPath) && returned == written
  {
    written := RunText(solverPath);
    returned := written;
  }

  /**
   * The run file opens with `option solver '<path>';`; a path without a
   * quote is read back as the text up to the first quote after the opening one.
   */
  lemma RunTextSolver(solverPath: string)
    ensures var text := RunText(solverPath);
      |SolverKey| + |solverPath| + 2 <= |text| &&
      text[..|SolverKey| + |solverPath| + 2] == "option solver '" + solverPath + "';" &&
      ((forall k :: 0 <= k < |solverPath| ==> solverPath[k] != '\'') ==> Find(text[|SolverKey|..], "'") == |solverPath|)
  {
    var text := RunText(solverPath);
    var rest := text[|SolverKey|..];
    assert text == SolverKey + (solverPath + ['\''] + ([';'] + RunTail));
    assert rest == solverPath + ['\''] + ([';'] + RunTail);
    assert text[..|SolverKey| + |solverPath| + 2] == SolverKey + solverPath + "';";
    if forall k :: 0 <= k < |solverPath| ==> solverPath[k] != '\'' {
      FindFirstMark(solverPath, '\'', [';'] + RunTail);
    }
  }

  /** `mb_to_b`: every budget, in order, from MB to bytes. */
  method MbToB(budgets: seq<int>) returns (r: seq<int>)
    ensures |r| == |budgets| && forall i :: 0 <= i < |budgets| ==> r[i] == budgets[i] * 1000 * 1000
  {
    r := [];
    for i := 0 to |budgets|
      invariant |r| == i && forall k :: 0 <= k < i ==> r[k] == budgets[k] * 1000 * 1000
    {
      r := r + [budgets[i] * 1000 * 1000];
    }
  }
}
