/**
 * selection/algorithms/cophy_input_generation.py: the AMPL input for the
 * CoPhy solver, printed, with each recorded combination's costs kept as a
 * dict of the queries it makes cheaper and `param f4` tagged by `query.nr`.
 */
module CophyInputGeneration {
  import opened Common
  import opened Indexes
  import opened Workloads
  import opened SelectionAlgorithms
  import opened CophyEnumeration

  /** `DEFAULT_PARAMETERS`. */
  function DefaultParameters(): (p: Params)
    ensures p.Keys == {"max_index_width", "max_indexes_per_query"}
    ensures p["max_index_width"] == IntParam(2) && p["max_indexes_per_query"] == IntParam(1)
  {
    map["max_index_width" := IntParam(2), "max_indexes_per_query" := IntParam(1)]
  }

  /** The printed data for the three tables, in print order (lines 67-90). */
  function Printed(t: Tables<QueryNr>): seq<Line<QueryNr>> {
    [Text("\nparam a :=\n")] + SizeLines(t.sizes) + [Text(";\n\n")] +
    [Text("set combi[0]:= ;\n")] + CombiLines(t.combis, "\n") +
    [Text("\nparam f4 :=\n")] + CostLines(t.costs) + [Text(";\n\n")]
  }

  /** The tables of `_calculate_best_indexes`: no seed, queries by number, the dict test. */
  function AmplTables(qs: seq<Query>, maxWidth: int, maxPer: int, cost: (Query, set<Index>) -> real,
                      sizeOf: Index -> nat): Result<Tables<QueryNr>>
  {
    Tabulated(qs, maxWidth, maxPer, cost, [], sizeOf, QueryNumbers(qs), true)
  }

  /** What `_calculate_best_indexes` prints after the enumeration, or the AssertionError of an index without a size. */
  function AmplInput(qs: seq<Query>, maxWidth: int, maxPer: int, cost: (Query, set<Index>) -> real,
                     sizeOf: Index -> nat): Result<seq<Line<QueryNr>>>
  {
    var t := AmplTables(qs, maxWidth, maxPer, cost, sizeOf);
    if t.Err? then Err(t.error) else Ok(Printed(t.value))
  }

  /**
   * `_calculate_best_indexes`: the enumeration, then the printing loops.
   * It returns the empty list; an index without a size raises.
   */
  method CalculateBestIndexes(w: Workload, maxWidth: int, maxPer: int, cost: (Query, set<Index>) -> real,
                              sizeOf: Index -> nat)
    returns (r: Result<seq<Index>>, printed: seq<Line<QueryNr>>)
    ensures var a := AmplInput(w.queries, maxWidth, maxPer, cost, sizeOf);
      r == (if a.Ok? then Ok([]) else Err(a.error)) && (a.Ok? ==> printed == a.value)
  {
    var t := Tabulate(w.queries, maxWidth, maxPer, cost, [], sizeOf, QueryNumbers(w.queries), true);
    if t.Err? {
      return Err(t.error), [];
    }
    printed := Printed(t.value);
    r := Ok([]);
  }

  /**
   * `_calculate_best_indexes` as written: the one-argument `Workload`
   * (lines 26, 50) or the missing `cost_requests` (line 60) fails before
   * anything is printed.
   */
  function AmplInputAsWritten(qs: seq<Query>): Result<seq<Line<QueryNr>>> {
    var e := EnumerationAsWritten(qs);
    if e.Err? then Err(e.error) else Ok([])
  }

  /**
   * As written the printing is never reached: every workload fails, with
   * a TypeError as soon as it has a query, where as intended it fails only
   * for a useful index without a size.
   */
  lemma AmplInputAsWrittenFails(qs: seq<Query>, maxWidth: int, maxPer: int, cost: (Query, set<Index>) -> real,
                                sizeOf: Index -> nat)
    ensures AmplInputAsWritten(qs).Err?
    ensures |qs| > 0 ==> AmplInputAsWritten(qs) == Err("TypeError")
    ensures |qs| == 0 ==> AmplInputAsWritten(qs) == Err("AttributeError")
    ensures AmplInput(qs, maxWidth, maxPer, cost, sizeOf).Err? ==>
      AmplInput(qs, maxWidth, maxPer, cost, sizeOf).error == "AssertionError"
  {
    AmplInputFails(qs, maxWidth, maxPer, cost, sizeOf);
  }

  // ------------------------------------------------------------ properties

  /** The printing fails exactly when some useful index has no size. */
  lemma AmplInputFails(qs: seq<Query>, maxWidth: int, maxPer: int, cost: (Query, set<Index>) -> real,
                       sizeOf: Index -> nat)
    ensures var a := AmplInput(qs, maxWidth, maxPer, cost, sizeOf);
      var useful := Enumerated(qs, maxWidth, maxPer, cost, []).useful;
      (a.Err? <==> exists k :: 0 <= k < |useful| && SizeOf(sizeOf, useful[k]) == 0) &&
      (a.Err? ==> a.error == "AssertionError")
  {
    TabulatedFails(qs, maxWidth, maxPer, cost, [], sizeOf, QueryNumbers(qs), true);
  }

  /**
   * The order of the printed data: the `param a` header, one line per
   * size row, the closing `;`, `combi[0]`, one line per combination row,
   * the `param f4` header, exactly the cost rows, and the closing `;`.
   */
  lemma PrintedLayout(t: Tables<QueryNr>, line: Line<QueryNr>)
    ensures var p, n, m := Printed(t), |t.sizes|, |t.combis|;
      |p| == 5 + n + m + |t.costs| &&
      p[0] == Text("\nparam a :=\n") &&
      (forall i :: 0 <= i < n ==> p[1 + i] == SizeLine(t.sizes[i])) &&
      p[1 + n] == Text(";\n\n") && p[2 + n] == Text("set combi[0]:= ;\n") &&
      (forall i :: 0 <= i < m ==> p[3 + n + i] == Text(CombiText(t.combis[i]) + "\n")) &&
      p[3 + n + m] == Text("\nparam f4 :=\n") &&
      p[|p| - 1] == Text(";\n\n") &&
      (line in p && line.CostLine? <==> line.CostLine? && line.row in t.costs)
  {
    var sizes := SizeLines<QueryNr>(t.sizes);
    var combis := CombiLines<QueryNr>(t.combis, "\n");
    LinesMeaning<QueryNr>(t.sizes, t.combis, "\n", t.costs, line);
    FramedLayout(Text("\nparam a :=\n"), sizes, Text(";\n\n"), Text("set combi[0]:= ;\n"), combis,
                 Text("\nparam f4 :=\n"), CostLines<QueryNr>(t.costs), Text(";\n\n"), line);
  }

  /** Where each part lies in lines framed as the printed data is. */
  lemma FramedLayout<L>(a: L, xs: seq<L>, b: L, c: L, ys: seq<L>, d: L, zs: seq<L>, e: L, x: L)
    ensures var p := [a] + xs + [b] + [c] + ys + [d] + zs + [e];
      |p| == 5 + |xs| + |ys| + |zs| && p[0] == a &&
      (forall i :: 0 <= i < |xs| ==> p[1 + i] == xs[i]) &&
      p[1 + |xs|] == b && p[2 + |xs|] == c &&
      (forall i :: 0 <= i < |ys| ==> p[3 + |xs| + i] == ys[i]) &&
      p[3 + |xs| + |ys|] == d && p[|p| - 1] == e &&
      (x in p <==> x == a || x in xs || x == b || x == c || x in ys || x == d || x in zs || x == e)
  {
    var head := [a] + xs + [b];
    var p := [a] + xs + [b] + [c] + ys + [d] + zs + [e];
    assert p == head + ([c] + ys) + ([d] + zs + [e]);
    forall i | 0 <= i < |xs| ensures p[1 + i] == xs[i] {
      assert p[1 + i] == head[1 + i];
    }
    forall i | 0 <= i < |ys| ensures p[3 + |xs| + i] == ys[i] {
      assert p[3 + |xs| + i] == ([c] + ys)[1 + i];
    }
  }

  /**
   * In `param f4` every query's base row is (query.nr, 0, cost without
   * indexes), and (nr, i, c) with i > 0 is there exactly when the i-th
   * recorded combination's dict holds some query numbered nr, at cost c;
   * the dict holds a query exactly when the combination makes it strictly
   * cheaper, at that cost.
   */
  lemma AmplCostRows(qs: seq<Query>, maxWidth: int, maxPer: int, cost: (Query, set<Index>) -> real,
                     sizeOf: Index -> nat, row: CostRow<QueryNr>)
    ensures var t := AmplTables(qs, maxWidth, maxPer, cost, sizeOf);
      var e := Enumerated(qs, maxWidth, maxPer, cost, []);
      t.Ok? ==>
        (forall j :: 0 <= j < |qs| ==> CostRow(qs[j].nr, 0, QueryCost(cost, qs[j], {})) in t.value.costs) &&
        (row.combination > 0 ==>
          (row in t.value.costs <==>
            row.combination <= |e.entries| &&
            exists j: nat :: j < |qs| && row.query == qs[j].nr && j in e.entries[row.combination - 1].cheaper &&
              row.cost == e.entries[row.combination - 1].cheaper[j])) &&
        (forall i, j: nat :: 0 <= i < |e.entries| && j < |qs| ==>
          (j in e.entries[i].cheaper <==> QueryCost(cost, qs[j], SetOf(e.entries[i].combination)) < QueryCost(cost, qs[j], {})) &&
          (j in e.entries[i].cheaper ==> e.entries[i].cheaper[j] == QueryCost(cost, qs[j], SetOf(e.entries[i].combination))))
  {
    var t := AmplTables(qs, maxWidth, maxPer, cost, sizeOf);
    var e := Enumerated(qs, maxWidth, maxPer, cost, []);
    var labels := QueryNumbers(qs);
    TabulatedCosts(qs, maxWidth, maxPer, cost, [], sizeOf, labels, true, row);
    EnumeratedMeaning(qs, maxWidth, maxPer, cost, [], [], Index([]));
    forall i, j: nat | 0 <= i < |e.entries| && j < |qs|
      ensures (j in e.entries[i].cheaper <==> QueryCost(cost, qs[j], SetOf(e.entries[i].combination)) < QueryCost(cost, qs[j], {}))
      ensures j in e.entries[i].cheaper ==> e.entries[i].cheaper[j] == QueryCost(cost, qs[j], SetOf(e.entries[i].combination))
    {
      var en := e.entries[i];
      assert en in e.entries;
      EntryOfMeaning(qs, e.base, en.combination, cost);
    }
    if t.Ok? {
      assert t == Tabulated(qs, maxWidth, maxPer, cost, [], sizeOf, labels, true);
      forall j | 0 <= j < |qs| ensures CostRow(qs[j].nr, 0, QueryCost(cost, qs[j], {})) in t.value.costs {
        assert CostRow(labels[j], 0, e.base[j]) in t.value.costs;
      }
      if row.combination > 0 && row in t.value.costs {
        var en := e.entries[row.combination - 1];
        var j :| 0 <= j < |qs| && row.query == labels[j] && en.costs[j] < e.base[j] && row.cost == en.costs[j];
        assert en in e.entries;
        EntryOfMeaning(qs, e.base, en.combination, cost);
        assert j in en.cheaper && row.cost == en.cheaper[j];
      }
      if 0 < row.combination <= |e.entries| {
        var en := e.entries[row.combination - 1];
        assert en in e.entries;
        EntryOfMeaning(qs, e.base, en.combination, cost);
        if exists j: nat :: j < |qs| && row.query == qs[j].nr && j in en.cheaper && row.cost == en.cheaper[j] {
          var j: nat :| j < |qs| && row.query == qs[j].nr && j in en.cheaper && row.cost == en.cheaper[j];
          assert row.query == labels[j] && en.costs[j] < e.base[j] && row.cost == en.costs[j];
          assert row in t.value.costs;
        }
      }
    }
  }
}
