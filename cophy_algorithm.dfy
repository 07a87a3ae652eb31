/**
 * selection/algorithms/cophy_algorithm.py: the AMPL input for the CoPhy
 * solver, printed. Index ids come from `param a`, the combinations from
 * `set combi[...]`, and the costs from `param f4`, whose queries are tagged
 * by their 1-based workload position.
 */
module CophyAlgorithm {
  import opened Common
  import opened Indexes
  import opened Workloads
  import opened SelectionAlgorithms
  import opened CophyEnumeration

  /** `DEFAULT_PARAMETERS`. */
  function DefaultParameters(): (p: Params)
    ensures p.Keys == {"max_index_columns", "max_indexes_per_query"}
    ensures p["max_index_columns"] == IntParam(2) && p["max_indexes_per_query"] == IntParam(1)
  {
    map["max_index_columns" := IntParam(2), "max_indexes_per_query" := IntParam(1)]
  }

  /** The printed data for the three tables, in print order (lines 64-88). */
  function Printed(t: Tables<nat>): seq<Line<nat>> {
    [Text("\nparam a :=\n")] + SizeLines(t.sizes) +
    [Text("set combi[0]:= ;\n")] + CombiLines(t.combis, "\n") +
    [Text("\nparam f4 :=\n")] + CostLines(t.costs)
  }

  /** The tables of `_calculate_best_indexes`: no seed, queries by position, the list test. */
  function AmplTables(qs: seq<Query>, maxWidth: int, maxPer: int, cost: (Query, set<Index>) -> real,
                      sizeOf: Index -> nat): Result<Tables<nat>>
  {
    Tabulated(qs, maxWidth, maxPer, cost, [], sizeOf, Positions(|qs|), false)
  }

  /** What `_calculate_best_indexes` prints after the enumeration, or the AssertionError of an index without a size. */
  function AmplInput(qs: seq<Query>, maxWidth: int, maxPer: int, cost: (Query, set<Index>) -> real,
                     sizeOf: Index -> nat): Result<seq<Line<nat>>>
  {
    var t := AmplTables(qs, maxWidth, maxPer, cost, sizeOf);
    if t.Err? then Err(t.error) else Ok(Printed(t.value))
  }

  /**
   * `_calculate_best_indexes`: the enumeration, then the printing loops.
   * It returns the empty list; an index without a size raises.
   */
  method CalculateBestIndexes(w: Workload, maxWidth: int, maxPer: int, cost: (Query, set<Index>) -> real,
                              sizeOf: Index -> nat)
    returns (r: Result<seq<Index>>, printed: seq<Line<nat>>)
    ensures var a := AmplInput(w.queries, maxWidth, maxPer, cost, sizeOf);
      r == (if a.Ok? then Ok([]) else Err(a.error)) && (a.Ok? ==> printed == a.value)
  {
    var t := Tabulate(w.queries, maxWidth, maxPer, cost, [], sizeOf, Positions(|w.queries|), false);
    if t.Err? {
      return Err(t.error), [];
    }
    printed := Printed(t.value);
    r := Ok([]);
  }

  // ------------------------------------------------------------ properties

  /** The printing fails exactly when some useful index has no size. */
  lemma AmplInputFails(qs: seq<Query>, maxWidth: int, maxPer: int, cost: (Query, set<Index>) -> real,
                       sizeOf: Index -> nat)
    ensures var a := AmplInput(qs, maxWidth, maxPer, cost, sizeOf);
      var useful := Enumerated(qs, maxWidth, maxPer, cost, []).useful;
      (a.Err? <==> exists k :: 0 <= k < |useful| && SizeOf(sizeOf, useful[k]) == 0) &&
      (a.Err? ==> a.error == "AssertionError")
  {
    TabulatedFails(qs, maxWidth, maxPer, cost, [], sizeOf, Positions(|qs|), false);
  }

  /**
   * The order of the printed data: the `param a` header, one line per
   * size row, `combi[0]`, one line per combination row, the `param f4`
   * header, then exactly the cost rows.
   */
  lemma PrintedLayout(t: Tables<nat>, line: Line<nat>)
    ensures var p, n, m := Printed(t), |t.sizes|, |t.combis|;
      |p| == 3 + n + m + |t.costs| &&
      p[0] == Text("\nparam a :=\n") &&
      (forall i :: 0 <= i < n ==> p[1 + i] == SizeLine(t.sizes[i])) &&
      p[1 + n] == Text("set combi[0]:= ;\n") &&
      (forall i :: 0 <= i < m ==> p[2 + n + i] == Text(CombiText(t.combis[i]) + "\n")) &&
      p[2 + n + m] == Text("\nparam f4 :=\n") &&
      (line in p && line.CostLine? <==> line.CostLine? && line.row in t.costs)
  {
    var p, n, m := Printed(t), |t.sizes|, |t.combis|;
    LinesMeaning<nat>(t.sizes, t.combis, "\n", t.costs, line);
    forall i | 0 <= i < n ensures p[1 + i] == SizeLine(t.sizes[i]) {
      assert p[1 + i] == SizeLines<nat>(t.sizes)[i];
    }
    forall i | 0 <= i < m ensures p[2 + n + i] == Text(CombiText(t.combis[i]) + "\n") {
      assert p[2 + n + i] == CombiLines<nat>(t.combis, "\n")[i];
    }
    if line in p && line.CostLine? {
      assert line !in [Text("\nparam a :=\n")] + SizeLines<nat>(t.sizes) + [Text("set combi[0]:= ;\n")];
      assert line !in CombiLines<nat>(t.combis, "\n") + [Text("\nparam f4 :=\n")];
    }
  }

  /**
   * In `param f4` every query is tagged by its 1-based workload position
   * q: its base row is (q, 0, cost without indexes), no other row has
   * combination 0, and (q, i, c) with i > 0 is there exactly when the i-th
   * recorded combination costs that query c, strictly less than without
   * indexes.
   */
  lemma AmplCostRows(qs: seq<Query>, maxWidth: int, maxPer: int, cost: (Query, set<Index>) -> real,
                     sizeOf: Index -> nat, row: CostRow<nat>)
    ensures var t := AmplTables(qs, maxWidth, maxPer, cost, sizeOf);
      var e := Enumerated(qs, maxWidth, maxPer, cost, []);
      t.Ok? ==>
        (forall j :: 0 <= j < |qs| ==> CostRow(j + 1, 0, QueryCost(cost, qs[j], {})) in t.value.costs) &&
        (row in t.value.costs && row.combination == 0 ==>
          1 <= row.query <= |qs| && row.cost == QueryCost(cost, qs[row.query - 1], {})) &&
        (row.combination > 0 ==>
          (row in t.value.costs <==>
            1 <= row.query <= |qs| && row.combination <= |e.entries| &&
            row.cost == QueryCost(cost, qs[row.query - 1], SetOf(e.entries[row.combination - 1].combination)) &&
            row.cost < QueryCost(cost, qs[row.query - 1], {})))
  {
    AmplBaseRows(qs, maxWidth, maxPer, cost, sizeOf, row);
    AmplCombinationRows(qs, maxWidth, maxPer, cost, sizeOf, row);
  }

  /** The base rows of `param f4`: one per query, tagged by its position, at its cost without indexes. */
  lemma AmplBaseRows(qs: seq<Query>, maxWidth: int, maxPer: int, cost: (Query, set<Index>) -> real,
                     sizeOf: Index -> nat, row: CostRow<nat>)
    ensures var t := AmplTables(qs, maxWidth, maxPer, cost, sizeOf);
      t.Ok? ==>
        (forall j :: 0 <= j < |qs| ==> CostRow(j + 1, 0, QueryCost(cost, qs[j], {})) in t.value.costs) &&
        (row in t.value.costs && row.combination == 0 ==>
          1 <= row.query <= |qs| && row.cost == QueryCost(cost, qs[row.query - 1], {}))
  {
    var t := AmplTables(qs, maxWidth, maxPer, cost, sizeOf);
    var e := Enumerated(qs, maxWidth, maxPer, cost, []);
    var labels := Positions(|qs|);
    TabulatedCosts(qs, maxWidth, maxPer, cost, [], sizeOf, labels, false, row);
    EnumeratedMeaning(qs, maxWidth, maxPer, cost, [], [], Index([]));
    forall j | 0 <= j < |qs| ensures labels[j] == j + 1 {
      PositionsAt(|qs|, j);
    }
    if t.Ok? {
      assert t == Tabulated(qs, maxWidth, maxPer, cost, [], sizeOf, labels, false);
      BaseRowsOf(qs, cost, e.base, labels, t.value.costs, row);
    }
  }

  /** The base-row facts, on the tables' rows as plain values. */
  lemma BaseRowsOf(qs: seq<Query>, cost: (Query, set<Index>) -> real, base: seq<real>, labels: seq<nat>,
                   costs: seq<CostRow<nat>>, row: CostRow<nat>)
    requires |labels| == |qs| == |base|
    requires forall j :: 0 <= j < |qs| ==> labels[j] == j + 1 && base[j] == QueryCost(cost, qs[j], {})
    requires forall j :: 0 <= j < |qs| ==> CostRow(labels[j], 0, base[j]) in costs
    requires row in costs && row.combination == 0 ==> exists j :: 0 <= j < |qs| && row == CostRow(labels[j], 0, base[j])
    ensures forall j :: 0 <= j < |qs| ==> CostRow(j + 1, 0, QueryCost(cost, qs[j], {})) in costs
    ensures row in costs && row.combination == 0 ==>
      1 <= row.query <= |qs| && row.cost == QueryCost(cost, qs[row.query - 1], {})
  {
    forall j | 0 <= j < |qs| ensures CostRow(j + 1, 0, QueryCost(cost, qs[j], {})) in costs {
      assert CostRow(labels[j], 0, base[j]) in costs;
    }
    if row in costs && row.combination == 0 {
      var j :| 0 <= j < |qs| && row == CostRow(labels[j], 0, base[j]);
      assert row.query - 1 == j;
    }
  }

  /** The facts about one combination's rows, on the tables' rows as plain values. */
  lemma CombinationRowsOf(qs: seq<Query>, cost: (Query, set<Index>) -> real, base: seq<real>, labels: seq<nat>,
                          en: Entry, costs: seq<CostRow<nat>>, row: CostRow<nat>)
    requires |labels| == |qs| == |base| == |en.costs|
    requires forall j :: 0 <= j < |qs| ==>
      labels[j] == j + 1 && base[j] == QueryCost(cost, qs[j], {}) && en.costs[j] == QueryCost(cost, qs[j], SetOf(en.combination))
    requires row in costs <==>
      exists j :: 0 <= j < |qs| && row.query == labels[j] && en.costs[j] < base[j] && row.cost == en.costs[j]
    ensures row in costs <==>
      1 <= row.query <= |qs| &&
      row.cost == QueryCost(cost, qs[row.query - 1], SetOf(en.combination)) &&
      row.cost < QueryCost(cost, qs[row.query - 1], {})
  {
    if row in costs {
      var j :| 0 <= j < |qs| && row.query == labels[j] && en.costs[j] < base[j] && row.cost == en.costs[j];
      assert row.query - 1 == j;
    }
    if 1 <= row.query <= |qs| {
      var j := row.query - 1;
      if row.cost == QueryCost(cost, qs[j], SetOf(en.combination)) && row.cost < QueryCost(cost, qs[j], {}) {
        assert row.query == labels[j] && en.costs[j] < base[j] && row.cost == en.costs[j];
      }
    }
  }

  /** The other rows of `param f4`: (q, i, c) exactly when the i-th combination makes query q strictly cheaper, at cost c. */
  lemma AmplCombinationRows(qs: seq<Query>, maxWidth: int, maxPer: int, cost: (Query, set<Index>) -> real,
                            sizeOf: Index -> nat, row: CostRow<nat>)
    ensures var t := AmplTables(qs, maxWidth, maxPer, cost, sizeOf);
      var e := Enumerated(qs, maxWidth, maxPer, cost, []);
      t.Ok? && row.combination > 0 ==>
        (row in t.value.costs <==>
          1 <= row.query <= |qs| && row.combination <= |e.entries| &&
          row.cost == QueryCost(cost, qs[row.query - 1], SetOf(e.entries[row.combination - 1].combination)) &&
          row.cost < QueryCost(cost, qs[row.query - 1], {}))
  {
    var t := AmplTables(qs, maxWidth, maxPer, cost, sizeOf);
    var e := Enumerated(qs, maxWidth, maxPer, cost, []);
    var labels := Positions(|qs|);
    TabulatedCosts(qs, maxWidth, maxPer, cost, [], sizeOf, labels, false, row);
    EnumeratedMeaning(qs, maxWidth, maxPer, cost, [], [], Index([]));
    if t.Ok? && 0 < row.combination <= |e.entries| {
      assert t == Tabulated(qs, maxWidth, maxPer, cost, [], sizeOf, labels, false);
      var en := e.entries[row.combination - 1];
      assert en in e.entries;
      EntryOfMeaning(qs, e.base, en.combination, cost);
      forall j | 0 <= j < |qs| ensures labels[j] == j + 1 {
        PositionsAt(|qs|, j);
      }
      CombinationRowsOf(qs, cost, e.base, labels, en, t.value.costs, row);
    }
  }
}
