/**
 * statsitics_tools/parse_normal_benchmark.py, and its older copy
 * statsitics_tools/read_csv.py, whose helpers are the same code: reading a
 * result row of a selection run back for the statistics. The budget in
 * bytes, the index list of the last cell, the query names of the
 * header, the per-query costs, and the indexes the plans of the run used.
 *
 * `ast.literal_eval`, `json.load` and the files are not part of this
 * model: configurations are given decoded, plans as trees.
 */
module NormalBenchmark {
  import opened Common
  import opened Indexes
  import opened SelectionAlgorithms
  import ResultParser

  // ------------------------------------------------------------ budget

  /**
   * Python's `int()` of a decoded value: a number truncated toward zero, a
   * boolean as 0 or 1, a text read as a decimal; a TypeError otherwise.
   */
  function PyInt(v: ParamValue): Result<int> {
    match v
    case IntParam(n) => Ok(n)
    case RealParam(x) => Ok(Trunc(x))
    case BoolParam(b) => Ok(if b then 1 else 0)
    case TextParam(s) => ParseInt(s)
    case _ => Err("TypeError")
  }

  /**
   * `convert_budget_to_mb` (`convert_budget` in read_csv.py): `budget_MB`
   * times 1,000,000 when the configuration has it, `budget` otherwise; a
   * KeyError without either.
   */
  function ConvertBudgetToMb(config: Params): Result<int> {
    if "budget_MB" in config then
      match PyInt(config["budget_MB"])
      case Err(e) => Err(e)
      case Ok(mb) => Ok(mb * 1000 * 1000)
    else if "budget" in config then PyInt(config["budget"])
    else Err("KeyError")
  }

  /**
   * A budget in MB is given in bytes, and reading it back in MB gives it;
   * `budget_MB` wins over `budget`; without `budget_MB`, `budget` is taken
   * as it is.
   */
  lemma ConvertBudgetMeaning(config: Params)
    ensures "budget_MB" in config && config["budget_MB"].IntParam? ==>
      ConvertBudgetToMb(config) == Ok(config["budget_MB"].n * 1000000) &&
      ConvertBudgetToMb(config).value / 1000000 == config["budget_MB"].n
    ensures "budget_MB" !in config && "budget" in config ==> ConvertBudgetToMb(config) == PyInt(config["budget"])
    ensures "budget_MB" !in config && "budget" !in config ==> ConvertBudgetToMb(config) == Err("KeyError")
    ensures ConvertBudgetToMb(config).Ok? && "budget_MB" in config ==> ConvertBudgetToMb(config).value % 1000000 == 0
  {
  }

  /** `int()` of the text of an integer gives the integer. */
  lemma PyIntOfText(i: int)
    ensures PyInt(TextParam(IntToString(i))) == Ok(i)
  {
    ParseIntOfInt(i);
  }

  // ------------------------------------------------------------ indexes and query names

  /** `convert_index`: the text without its first and last characters, split on `, `. */
  function ConvertIndex(indexString: string): seq<string> {
    Split(DropEnds(indexString, 1, 1), ", ")
  }

  /**
   * On the text of a list of indexes (`str(indexes)` of a result row),
   * `convert_index` gives back each index's own text, when no table or
   * column name holds a comma; an empty list gives one empty name.
   */
  lemma ConvertIndexOfList(ixs: seq<Index>)
    requires ResultParser.Readable(ixs)
    ensures |ixs| > 0 ==> ConvertIndex(ResultParser.IndexListRepr(ixs)) == ResultParser.IndexReprs(ixs)
    ensures |ixs| == 0 ==> ConvertIndex(ResultParser.IndexListRepr(ixs)) == [""]
  {
    var inner := Join(", ", ResultParser.IndexReprs(ixs));
    var text := ResultParser.IndexListRepr(ixs);
    assert text == "[" + inner + "]";
    assert DropEnds(text, 1, 1) == inner;
    if |ixs| > 0 {
      ResultParser.SplitIndexReprs(ixs);
    } else {
      assert inner == "";
      assert Find("", ", ") == -1;
    }
  }

  /** `retrieve_query_names`: the header cells over the cost columns, 16 up to the last one. */
  function RetrieveQueryNames(header: seq<string>): seq<string> {
    ResultParser.CostCells(header)
  }

  /**
   * The query names of the header stand over the cost cells of a row of
   * the same width, position by position.
   */
  lemma QueryNamesOverCosts(header: seq<string>, row: seq<string>)
    requires |header| == |row|
    ensures |RetrieveQueryNames(header)| == |ResultParser.CostCells(row)|
    ensures forall m :: 0 <= m < |RetrieveQueryNames(header)| ==>
      RetrieveQueryNames(header)[m] == header[16 + m] && ResultParser.CostCells(row)[m] == row[16 + m]
  {
  }

  // ------------------------------------------------------------ query costs

  /**
   * What `convert_query_costs_list_to_dict` builds from the first `n`
   * names: the `i`-th name maps to the `i`-th cost, a later name replacing
   * an earlier equal one.
   */
  function Paired<T>(queries: seq<string>, costs: seq<T>, n: nat): map<string, T>
    requires n <= |queries| && n <= |costs|
  {
    if n == 0 then map[] else Paired(queries, costs, n - 1)[queries[n - 1] := costs[n - 1]]
  }

  /** `convert_query_costs_list_to_dict`: an IndexError when there are fewer costs than names. */
  function QueryCostsDict<T>(queries: seq<string>, costs: seq<T>): Result<map<string, T>> {
    if |costs| < |queries| then Err("IndexError") else Ok(Paired(queries, costs, |queries|))
  }

  /** `convert_query_costs_list_to_dict`. */
  method ConvertQueryCostsListToDict<T>(queries: seq<string>, costs: seq<T>) returns (r: Result<map<string, T>>)
    ensures r == QueryCostsDict(queries, costs)
  {
    var queryDict := map[];
    for num := 0 to |queries|
      invariant num <= |costs| && queryDict == Paired(queries, costs, num)
    {
      if num >= |costs| {
        return Err("IndexError");
      }
      queryDict := queryDict[queries[num] := costs[num]];
    }
    r := Ok(queryDict);
  }

  /**
   * The names pair with the costs by position: every name is a key, every
   * key a name, and a name that does not repeat later maps to the cost at
   * its position; costs past the last name are ignored.
   */
  lemma {:induction false} PairedMeaning<T>(queries: seq<string>, costs: seq<T>, n: nat)
    requires n <= |queries| && n <= |costs|
    ensures forall q :: q in Paired(queries, costs, n) <==> q in queries[..n]
    ensures forall i :: 0 <= i < n && (forall j :: i < j < n ==> queries[j] != queries[i]) ==>
      Paired(queries, costs, n)[queries[i]] == costs[i]
  {
    if n > 0 {
      PairedMeaning(queries, costs, n - 1);
      assert queries[..n] == queries[..n - 1] + [queries[n - 1]];
    }
  }

  /** The dictionary of distinct names: each name's cost is the cost at its position. */
  lemma QueryCostsDictMeaning<T>(queries: seq<string>, costs: seq<T>)
    requires Distinct(queries) && |costs| >= |queries|
    ensures QueryCostsDict(queries, costs).Ok?
    ensures QueryCostsDict(queries, costs).value.Keys == SetOf(queries)
    ensures forall i :: 0 <= i < |queries| ==> QueryCostsDict(queries, costs).value[queries[i]] == costs[i]
  {
    PairedMeaning(queries, costs, |queries|);
    assert queries[..|queries|] == queries;
  }

  // ------------------------------------------------------------ plans

  /** `normalize_index_name`: what follows the first `>`, or the name itself without one. */
  function NormalizeIndexName(name: string): string {
    var cutoff := Find(name, ">");
    if cutoff != -1 then name[cutoff + 1..] else name
  }

  /**
   * A hypothetical index name is its id, `>`, and the name proper:
   * normalising gives the name proper, whatever it contains.
   */
  lemma NormalizeDropsId(id: string, rest: string)
    requires !Contains(id, ">")
    ensures NormalizeIndexName(id + ">" + rest) == rest
  {
    var name := id + ">" + rest;
    assert OccursAt(name, ">", |id|);
    forall j: nat | j < |id| ensures !OccursAt(name, ">", j) {
      assert !OccursAt(id, ">", j);
      assert name[j..j + 1] == id[j..j + 1];
    }
  }

  /** A name without `>` is left as it is; one with `>` loses everything up to its first `>`. */
  lemma NormalizeMeaning(name: string)
    ensures !Contains(name, ">") ==> NormalizeIndexName(name) == name
    ensures Contains(name, ">") ==>
      var cut := Find(name, ">");
      name == name[..cut] + ">" + NormalizeIndexName(name) && !Contains(name[..cut], ">")
  {
    if Contains(name, ">") {
      var cut := Find(name, ">");
      assert name[cut..cut + 1] == ">";
      assert name == name[..cut] + ">" + name[cut + 1..];
      forall j: nat | j <= cut ensures !OccursAt(name[..cut], ">", j) {
        if OccursAt(name[..cut], ">", j) {
          assert name[..cut][j..j + 1] == name[j..j + 1];
          assert OccursAt(name, ">", j);
        }
      }
    }
  }

  /**
   * A node of a query plan: its `Node Type`, its `Index Name` if it has
   * one, and whether it has `Plans` and which.
   */
  datatype PlanNode = PlanNode(nodeType: string, indexName: Option<string>, hasPlans: bool, plans: seq<PlanNode>)

  /** `"Index" in node["Node Type"]`. */
  predicate IsIndexNode(node: PlanNode) {
    Contains(node.nodeType, "Index")
  }

  /**
   * `rec_plan_search` on values: the set after the walk of `node` from
   * `acc`, and whether the walk ended normally (an index node without an
   * `Index Name` is a KeyError, which leaves the names added so far).
   */
  function Visit(node: PlanNode, acc: set<string>): (set<string>, bool)
    decreases node, 1
  {
    if IsIndexNode(node) && node.indexName.None? then (acc, false)
    else
      var here := if IsIndexNode(node) then acc + {NormalizeIndexName(node.indexName.value)} else acc;
      if node.hasPlans then VisitAll(node.plans, here) else (here, true)
  }

  /** The walk of the children, in order. */
  function VisitAll(children: seq<PlanNode>, acc: set<string>): (set<string>, bool)
    decreases children, 0
  {
    if |children| == 0 then (acc, true)
    else
      var first := Visit(children[0], acc);
      if !first.1 then first else VisitAll(children[1..], first.0)
  }

  /** The set `rec_plan_search` adds to. */
  class IndexNames {
    var names: set<string>

    constructor ()
      ensures names == {}
    {
      names := {};
    }
  }

  /** `rec_plan_search`: `ok` is false where the source raises a KeyError. */
  method RecPlanSearch(node: PlanNode, indexes: IndexNames) returns (ok: bool)
    modifies indexes
    decreases node, 1
    ensures (indexes.names, ok) == Visit(node, old(indexes.names))
  {
    if Contains(node.nodeType, "Index") {
      if node.indexName.None? {
        return false;
      }
      indexes.names := indexes.names + {NormalizeIndexName(node.indexName.value)};
    }
    if node.hasPlans {
      ok := SearchChildren(node.plans, indexes);
    } else {
      ok := true;
    }
  }

  /** The loop of `rec_plan_search` over the children. */
  method SearchChildren(children: seq<PlanNode>, indexes: IndexNames) returns (ok: bool)
    modifies indexes
    decreases children, 0
    ensures (indexes.names, ok) == VisitAll(children, old(indexes.names))
  {
    for k := 0 to |children|
      invariant VisitAll(children[k..], indexes.names) == VisitAll(children, old(indexes.names))
    {
      assert children[k..][1..] == children[k + 1..];
      ok := RecPlanSearch(children[k], indexes);
      if !ok {
        return false;
      }
    }
    assert children[|children|..] == [];
    ok := true;
  }

  /** The nodes of a plan, the node first and then those of its children in order. */
  function Nodes(node: PlanNode): seq<PlanNode>
    decreases node, 1
  {
    [node] + (if node.hasPlans then NodesAll(node.plans) else [])
  }

  function NodesAll(children: seq<PlanNode>): seq<PlanNode>
    decreases children, 0
  {
    if |children| == 0 then [] else Nodes(children[0]) + NodesAll(children[1..])
  }

  /** Every index node among `nodes` has an `Index Name`. */
  predicate Named(nodes: seq<PlanNode>) {
    forall k :: 0 <= k < |nodes| && IsIndexNode(nodes[k]) ==> nodes[k].indexName.Some?
  }

  /** The normalised names of the index nodes among `nodes`. */
  function NamesOf(nodes: seq<PlanNode>): set<string>
    requires Named(nodes)
  {
    set k | 0 <= k < |nodes| && IsIndexNode(nodes[k]) :: NormalizeIndexName(nodes[k].indexName.value)
  }

  lemma NamesOfConcat(a: seq<PlanNode>, b: seq<PlanNode>)
    requires Named(a) && Named(b)
    ensures Named(a + b) && NamesOf(a + b) == NamesOf(a) + NamesOf(b)
  {
    var ab := a + b;
    assert forall k :: 0 <= k < |a| ==> ab[k] == a[k];
    assert forall k :: |a| <= k < |ab| ==> ab[k] == b[k - |a|];
    forall x | x in NamesOf(b) ensures x in NamesOf(ab) {
      var k :| 0 <= k < |b| && IsIndexNode(b[k]) && NormalizeIndexName(b[k].indexName.value) == x;
      assert ab[|a| + k] == b[k];
    }
  }

  /**
   * The walk of a plan adds the normalised names of exactly its index
   * nodes, anywhere in the tree, to what the set held; it ends normally
   * exactly when every index node has an `Index Name`.
   */
  lemma {:induction false} VisitMeaning(node: PlanNode, acc: set<string>)
    ensures Visit(node, acc).1 <==> Named(Nodes(node))
    ensures Named(Nodes(node)) ==> Visit(node, acc).0 == acc + NamesOf(Nodes(node))
    decreases node, 1
  {
    var here := if IsIndexNode(node) && node.indexName.Some? then acc + {NormalizeIndexName(node.indexName.value)} else acc;
    var rest := if node.hasPlans then NodesAll(node.plans) else [];
    assert Nodes(node) == [node] + rest;
    if node.hasPlans {
      VisitAllMeaning(node.plans, here);
    }
    if Named([node]) && Named(rest) {
      NamesOfConcat([node], rest);
      assert [node][0] == node;
      if IsIndexNode(node) {
        assert NamesOf([node]) == {NormalizeIndexName(node.indexName.value)};
      } else {
        assert NamesOf([node]) == {};
      }
    }
    assert Named(Nodes(node)) ==> Named([node]) && Named(rest) by {
      if Named(Nodes(node)) {
        assert Nodes(node)[0] == node;
        forall k | 0 <= k < |rest| && IsIndexNode(rest[k]) ensures rest[k].indexName.Some? {
          assert Nodes(node)[k + 1] == rest[k];
        }
      }
    }
  }

  lemma {:induction false} VisitAllMeaning(children: seq<PlanNode>, acc: set<string>)
    ensures VisitAll(children, acc).1 <==> Named(NodesAll(children))
    ensures Named(NodesAll(children)) ==> VisitAll(children, acc).0 == acc + NamesOf(NodesAll(children))
    decreases children, 0
  {
    if |children| > 0 {
      var head := Nodes(children[0]);
      var tail := NodesAll(children[1..]);
      VisitMeaning(children[0], acc);
      var first := Visit(children[0], acc);
      if first.1 {
        VisitAllMeaning(children[1..], first.0);
      }
      assert NodesAll(children) == head + tail;
      if Named(head) && Named(tail) {
        NamesOfConcat(head, tail);
      }
      assert Named(head + tail) ==> Named(head) && Named(tail) by {
        if Named(head + tail) {
          forall k | 0 <= k < |head| && IsIndexNode(head[k]) ensures head[k].indexName.Some? {
            assert (head + tail)[k] == head[k];
          }
          forall k | 0 <= k < |tail| && IsIndexNode(tail[k]) ensures tail[k].indexName.Some? {
            assert (head + tail)[|head| + k] == tail[k];
          }
        }
      }
    } else {
      assert NamesOf([]) == {};
    }
  }

  /** The walk only ever adds: whatever happens, nothing the set held is lost. */
  lemma {:induction false} VisitOnlyAdds(node: PlanNode, acc: set<string>)
    ensures acc <= Visit(node, acc).0
    decreases node, 1
  {
    if !(IsIndexNode(node) && node.indexName.None?) && node.hasPlans {
      var here := if IsIndexNode(node) then acc + {NormalizeIndexName(node.indexName.value)} else acc;
      VisitAllOnlyAdds(node.plans, here);
    }
  }

  lemma {:induction false} VisitAllOnlyAdds(children: seq<PlanNode>, acc: set<string>)
    ensures acc <= VisitAll(children, acc).0
    decreases children, 0
  {
    if |children| > 0 {
      VisitOnlyAdds(children[0], acc);
      var first := Visit(children[0], acc);
      if first.1 {
        VisitAllOnlyAdds(children[1..], first.0);
      }
    }
  }
}
