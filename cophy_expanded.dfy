/**
 * selection/algorithms/cophy_expanded.py: the CoPhy enumeration seeded
 * with the indexes other selection algorithms choose, written as an AMPL
 * data file under `<target_path>/data/`. Whether the file exists is the
 * parameter `isFile`, and the other algorithms are the parameter `run`
 * (their name and parameters to the indexes they select). The lines of
 * the file are the model's output.
 */
module CophyExpanded {
  import opened Common
  import opened Indexes
  import opened Workloads
  import opened SelectionAlgorithms
  import opened CophyEnumeration
  import InputExpanded = CophyInputExpanded
  import Cophy = CophyAlgorithm

  /** `DEFAULT_PARAMETERS` as written: `extra_algorithms` is the text 'none', which has no `keys()`. */
  function DefaultParametersAsWritten(): (p: Params)
    ensures p.Keys == {"max_index_width", "max_indexes_per_query", "target_path", "benchmark", "extra_algorithms",
                       "overwrite"}
    ensures p["extra_algorithms"] == TextParam("none")
  {
    map["max_index_width" := IntParam(2), "max_indexes_per_query" := IntParam(1),
        "target_path" := TextParam("cophy_data_files"), "benchmark" := TextParam(""),
        "extra_algorithms" := TextParam("none"), "overwrite" := BoolParam(false)]
  }

  /**
   * `DEFAULT_PARAMETERS` as intended: `extra_algorithms` a dict naming no
   * algorithm (the default of cophy_input_expanded.py), so that the file
   * name can be formed.
   */
  function DefaultParameters(): (p: Params)
    ensures p.Keys == DefaultParametersAsWritten().Keys
    ensures forall k :: k in p && k != "extra_algorithms" ==> p[k] == DefaultParametersAsWritten()[k]
    ensures p["extra_algorithms"] == DictParam([("None", DictParam([]))])
  {
    DefaultParametersAsWritten()["extra_algorithms" := DictParam([("None", DictParam([]))])]
  }

  /** The parameters the algorithm reads; `extra_algorithms` stays a raw value. */
  datatype Settings = Settings(maxIndexWidth: int, maxIndexesPerQuery: int, targetPath: string, benchmark: string,
                               extraAlgorithms: ParamValue, overwrite: bool)

  /** The settings of a parameter dict whose values have the types of the defaults. */
  function SettingsOf(p: Params): Option<Settings> {
    if "max_index_width" in p && p["max_index_width"].IntParam? &&
       "max_indexes_per_query" in p && p["max_indexes_per_query"].IntParam? &&
       "target_path" in p && p["target_path"].TextParam? && "benchmark" in p && p["benchmark"].TextParam? &&
       "extra_algorithms" in p && "overwrite" in p && p["overwrite"].BoolParam?
    then Some(Settings(p["max_index_width"].n, p["max_indexes_per_query"].n, p["target_path"].s,
                       p["benchmark"].s, p["extra_algorithms"], p["overwrite"].b))
    else None
  }

  /** `datafile_path` (line 32), with the filename component of cophy_input_expanded.py. */
  function DataFilePath(s: Settings): Result<string> {
    var component := InputExpanded.FilenameComponent(s.extraAlgorithms);
    if component.Err? then Err(component.error)
    else Ok(s.targetPath + "/data/" + s.benchmark + "_" + IntToString(s.maxIndexWidth) + "_" +
            IntToString(s.maxIndexesPerQuery) + "-" + component.value + ".dat")
  }

  // ------------------------------------------------------------ extra algorithms

  /** The union of the indexes each known algorithm of the dict's entries selects, unknown names skipped. */
  function HeuristicOf(entries: seq<(string, ParamValue)>, run: (string, ParamValue) -> seq<Index>): seq<Index> {
    if |entries| == 0 then []
    else
      var last := entries[|entries| - 1];
      var before := HeuristicOf(entries[..|entries| - 1], run);
      if last.0 in InputExpanded.KnownAlgorithms then AddAll(before, run(last.0, last.1)) else before
  }

  /** `extra_algorithms`: the heuristic indexes, or the AttributeError of a value without `keys()`. */
  function HeuristicIndexes(extras: ParamValue, run: (string, ParamValue) -> seq<Index>): Result<seq<Index>> {
    if extras.DictParam? then Ok(HeuristicOf(extras.entries, run)) else Err("AttributeError")
  }

  /**
   * The heuristic indexes hold each index once, and exactly those some
   * known algorithm named in the dict selects.
   */
  lemma HeuristicOfMeaning(entries: seq<(string, ParamValue)>, run: (string, ParamValue) -> seq<Index>, x: Index)
    ensures Distinct(HeuristicOf(entries, run))
    ensures x in HeuristicOf(entries, run) <==>
      exists k :: 0 <= k < |entries| && entries[k].0 in InputExpanded.KnownAlgorithms && x in run(entries[k].0, entries[k].1)
  {
    HeuristicOfDistinct(entries, run);
    HeuristicOfMembers(entries, run, x);
  }

  /** The heuristic indexes hold each index once. */
  lemma {:induction false} HeuristicOfDistinct(entries: seq<(string, ParamValue)>, run: (string, ParamValue) -> seq<Index>)
    ensures Distinct(HeuristicOf(entries, run))
  {
    if |entries| > 0 {
      var n := |entries| - 1;
      HeuristicOfDistinct(entries[..n], run);
      AddAllMeaning(HeuristicOf(entries[..n], run), run(entries[n].0, entries[n].1));
    }
  }

  /** The heuristic indexes are exactly those some known algorithm named in the dict selects. */
  lemma {:induction false} HeuristicOfMembers(entries: seq<(string, ParamValue)>, run: (string, ParamValue) -> seq<Index>,
                                              x: Index)
    ensures x in HeuristicOf(entries, run) <==>
      exists k :: 0 <= k < |entries| && entries[k].0 in InputExpanded.KnownAlgorithms && x in run(entries[k].0, entries[k].1)
  {
    if |entries| > 0 {
      var n := |entries| - 1;
      var before := HeuristicOf(entries[..n], run);
      HeuristicOfMembers(entries[..n], run, x);
      AddAllMeaning(before, run(entries[n].0, entries[n].1));
      if x in HeuristicOf(entries, run) {
        if x !in before {
          assert entries[n].0 in InputExpanded.KnownAlgorithms && x in run(entries[n].0, entries[n].1);
        } else {
          var k :| 0 <= k < n && entries[..n][k].0 in InputExpanded.KnownAlgorithms && x in run(entries[..n][k].0, entries[..n][k].1);
          assert entries[k] == entries[..n][k];
        }
      }
      if exists k :: 0 <= k < |entries| && entries[k].0 in InputExpanded.KnownAlgorithms && x in run(entries[k].0, entries[k].1) {
        var k :| 0 <= k < |entries| && entries[k].0 in InputExpanded.KnownAlgorithms && x in run(entries[k].0, entries[k].1);
        if k < n {
          assert entries[..n][k] == entries[k];
        }
      }
    }
  }

  /** The loop of `extra_algorithms` (lines 134-145). */
  method ExtraAlgorithms(extras: ParamValue, run: (string, ParamValue) -> seq<Index>) returns (r: Result<seq<Index>>)
    ensures r == HeuristicIndexes(extras, run)
  {
    if !extras.DictParam? {
      return Err("AttributeError");
    }
    var entries := extras.entries;
    var heuristic: seq<Index> := [];
    for i := 0 to |entries|
      invariant heuristic == HeuristicOf(entries[..i], run)
    {
      assert entries[..i + 1][..i] == entries[..i];
      if entries[i].0 in InputExpanded.KnownAlgorithms {
        heuristic := AddEach(heuristic, run(entries[i].0, entries[i].1));
      }
    }
    assert entries[..|entries|] == entries;
    r := Ok(heuristic);
  }

  // ------------------------------------------------------------ the data file

  /** `#<n>`, a count as an AMPL comment. */
  function CountLine(n: nat): Line<nat> {
    Text("#" + NatToString(n) + "\n")
  }

  /** The file's lines (lines 78-118) without the time and cost-request lines. */
  function Written(usefulCount: nat, combinationCount: nat, t: Tables<nat>): seq<Line<nat>> {
    [CountLine(usefulCount), CountLine(combinationCount),
     Text("data;\n\n"), Text("\nparam a :=\n")] + SizeLines(t.sizes) + [Text(";\n\n")] +
    [Text("set combi[0]:= ;\n")] + CombiLines(t.combis, "\n") +
    [Text("\nparam f4 :=\n")] + CostLines(t.costs) + [Text(";\n")]
  }

  /** The tables for given heuristic indexes: queries by position and the list test. */
  function SeededTables(qs: seq<Query>, s: Settings, cost: (Query, set<Index>) -> real, sizeOf: Index -> nat,
                        heuristic: seq<Index>): Result<Tables<nat>>
  {
    Tabulated(qs, s.maxIndexWidth, s.maxIndexesPerQuery, cost, heuristic, sizeOf, Positions(|qs|), false)
  }

  /**
   * `_calculate_best_indexes`: `None` when the data file exists and must
   * not be overwritten, otherwise the lines written to it; an
   * `extra_algorithms` without `keys()` raises an AttributeError already
   * at line 32, an index without a size the AssertionError.
   */
  function Expanded(qs: seq<Query>, s: Settings, cost: (Query, set<Index>) -> real, sizeOf: Index -> nat,
                    isFile: string -> bool, run: (string, ParamValue) -> seq<Index>): Result<Option<seq<Line<nat>>>>
  {
    var path := DataFilePath(s);
    if path.Err? then Err(path.error)
    else if isFile(path.value) && !s.overwrite then Ok(None)
    else
      var heuristic := HeuristicIndexes(s.extraAlgorithms, run);
      if heuristic.Err? then Err(heuristic.error)
      else
        var e := Enumerated(qs, s.maxIndexWidth, s.maxIndexesPerQuery, cost, heuristic.value);
        var t := SeededTables(qs, s, cost, sizeOf, heuristic.value);
        if t.Err? then Err(t.error) else Ok(Some(Written(|e.useful|, |e.entries|, t.value)))
  }

  /**
   * `_calculate_best_indexes` as written: after the file check, a known
   * extra algorithm fails with AttributeError (lines 142-144), otherwise
   * the one-argument `Workload` (lines 42, 66) or the missing
   * `cost_requests` (line 81) fails before the data is written.
   */
  function ExpandedAsWritten(qs: seq<Query>, s: Settings, isFile: string -> bool,
                             run: (string, ParamValue) -> seq<Index>): Result<Option<seq<Line<nat>>>>
  {
    var path := DataFilePath(s);
    if path.Err? then Err(path.error)
    else if isFile(path.value) && !s.overwrite then Ok(None)
    else
      var heuristic := HeuristicIndexes(s.extraAlgorithms, run);
      if heuristic.Err? then Err(heuristic.error)
      else if InputExpanded.NamesKnownAlgorithm(s.extraAlgorithms) then Err("AttributeError")
      else
        var e := EnumerationAsWritten(qs);
        if e.Err? then Err(e.error) else Ok(None)
  }

  /**
   * As written no data file is ever written: the run ends early exactly
   * where the intended one does, and wherever the intended one writes the
   * data it fails instead: with a TypeError when there are queries and no
   * known extra algorithm is named, otherwise with an AttributeError.
   */
  lemma ExpandedAsWrittenFails(qs: seq<Query>, s: Settings, cost: (Query, set<Index>) -> real, sizeOf: Index -> nat,
                               isFile: string -> bool, run: (string, ParamValue) -> seq<Index>)
    ensures ExpandedAsWritten(qs, s, isFile, run).Ok? <==> Expanded(qs, s, cost, sizeOf, isFile, run) == Ok(None)
    ensures ExpandedAsWritten(qs, s, isFile, run).Ok? ==> ExpandedAsWritten(qs, s, isFile, run) == Ok(None)
    ensures Expanded(qs, s, cost, sizeOf, isFile, run).Ok? && Expanded(qs, s, cost, sizeOf, isFile, run).value.Some? ==>
      ExpandedAsWritten(qs, s, isFile, run) ==
        Err(if |qs| > 0 && !InputExpanded.NamesKnownAlgorithm(s.extraAlgorithms) then "TypeError" else "AttributeError")
  {
  }

  /** `_calculate_best_indexes`; it returns the empty list whether or not it writes the file. */
  method CalculateBestIndexes(w: Workload, s: Settings, cost: (Query, set<Index>) -> real, sizeOf: Index -> nat,
                              isFile: string -> bool, run: (string, ParamValue) -> seq<Index>)
    returns (r: Result<seq<Index>>, written: Option<seq<Line<nat>>>)
    ensures var x := Expanded(w.queries, s, cost, sizeOf, isFile, run);
      r == (if x.Ok? then Ok([]) else Err(x.error)) && (x.Ok? ==> written == x.value)
  {
    var path := DataFilePath(s);
    if path.Err? {
      return Err(path.error), None;
    }
    if isFile(path.value) && !s.overwrite {
      return Ok([]), None;
    }
    var heuristic := ExtraAlgorithms(s.extraAlgorithms, run);
    if heuristic.Err? {
      return Err(heuristic.error), None;
    }
    var e := Enumerate(w.queries, s.maxIndexWidth, s.maxIndexesPerQuery, cost, heuristic.value);
    var t := Tabulate(w.queries, s.maxIndexWidth, s.maxIndexesPerQuery, cost, heuristic.value, sizeOf,
                      Positions(|w.queries|), false);
    if t.Err? {
      return Err(t.error), None;
    }
    written := Some(Written(|e.useful|, |e.entries|, t.value));
    r := Ok([]);
  }

  // ------------------------------------------------------------ properties

  /** The file in four pieces: the preamble, `param a`, the combinations and `param f4`. */
  lemma WrittenPieces(u: nat, c: nat, t: Tables<nat>)
    ensures Written(u, c, t) ==
      Preamble(u, c) +
      (SizeLines<nat>(t.sizes) + [Text(";\n\n")]) +
      ([Text("set combi[0]:= ;\n")] + CombiLines<nat>(t.combis, "\n")) +
      ([Text("\nparam f4 :=\n")] + CostLines<nat>(t.costs) + [Text(";\n")])
  {
  }

  /**
   * The fixed lines of the file: the two counts, `data;`, the `param a`
   * header, its end after the n size rows, `combi[0]`, the `param f4`
   * header after the m combination rows, and the end after the cost rows.
   */
  lemma WrittenLayout(u: nat, c: nat, t: Tables<nat>)
    ensures var p, n, m := Written(u, c, t), |t.sizes|, |t.combis|;
      |p| == 8 + n + m + |t.costs| &&
      p[0] == CountLine(u) && p[1] == CountLine(c) &&
      p[2] == Text("data;\n\n") && p[3] == Text("\nparam a :=\n") &&
      p[4 + n] == Text(";\n\n") && p[5 + n] == Text("set combi[0]:= ;\n") &&
      p[6 + n + m] == Text("\nparam f4 :=\n") && p[|p| - 1] == Text(";\n")
  {
    var p, n, m := Written(u, c, t), |t.sizes|, |t.combis|;
    var pre := [CountLine(u), CountLine(c), Text("data;\n\n"), Text("\nparam a :=\n")];
    var head := SizeLines<nat>(t.sizes) + [Text(";\n\n")];
    var middle := [Text("set combi[0]:= ;\n")] + CombiLines<nat>(t.combis, "\n");
    var tail := [Text("\nparam f4 :=\n")] + CostLines<nat>(t.costs) + [Text(";\n")];
    WrittenPieces(u, c, t);
    assert p[..4] == pre;
    assert p[4 + n] == head[n];
    assert p[5 + n] == middle[0];
    assert p[6 + n + m] == tail[0];
    assert p[|p| - 1] == tail[|tail| - 1];
  }

  /** The lines of `param a`, of the combinations and of `param f4`, and where each block starts. */
  function Preamble(u: nat, c: nat): seq<Line<nat>> {
    [CountLine(u), CountLine(c), Text("data;\n\n"), Text("\nparam a :=\n")]
  }

  /** After the preamble, one line per size row of `param a`, in order. */
  lemma WrittenSizeRows(u: nat, c: nat, t: Tables<nat>)
    ensures var p := Written(u, c, t);
      forall i :: 0 <= i < |t.sizes| ==> 4 + i < |p| && p[4 + i] == SizeLine(t.sizes[i])
  {
    var p, n := Written(u, c, t), |t.sizes|;
    var sizes := SizeLines<nat>(t.sizes);
    WrittenPieces(u, c, t);
    var front := Preamble(u, c) + sizes;
    assert p == front + p[4 + n..];
    LinesMeaning<nat>(t.sizes, [], "\n", [], Text(""));
    forall i | 0 <= i < n ensures p[4 + i] == SizeLine(t.sizes[i]) {
      assert p[4 + i] == front[4 + i] == sizes[i];
    }
  }

  /** After the end of `param a` and `combi[0]`, one line per combination row, in order. */
  lemma WrittenCombiRows(u: nat, c: nat, t: Tables<nat>)
    ensures var p, n := Written(u, c, t), |t.sizes|;
      forall i :: 0 <= i < |t.combis| ==> 6 + n + i < |p| && p[6 + n + i] == Text(CombiText(t.combis[i]) + "\n")
  {
    var p, n, m := Written(u, c, t), |t.sizes|, |t.combis|;
    var combis := CombiLines<nat>(t.combis, "\n");
    WrittenPieces(u, c, t);
    var front := Preamble(u, c) + (SizeLines<nat>(t.sizes) + [Text(";\n\n")]) + [Text("set combi[0]:= ;\n")];
    assert |front| == 6 + n;
    var tail := [Text("\nparam f4 :=\n")] + CostLines<nat>(t.costs) + [Text(";\n")];
    assert p == front + combis + tail;
    assert p[6 + n..6 + n + m] == combis;
    LinesMeaning<nat>([], t.combis, "\n", [], Text(""));
  }

  /** After the `param f4` header, exactly one line per cost row, in order, then the end. */
  lemma WrittenCostRows(u: nat, c: nat, t: Tables<nat>)
    ensures var p, n, m := Written(u, c, t), |t.sizes|, |t.combis|;
      |p| == 8 + n + m + |t.costs| &&
      forall i :: 0 <= i < |t.costs| ==> p[7 + n + m + i] == CostLine(t.costs[i])
  {
    var p, n, m := Written(u, c, t), |t.sizes|, |t.combis|;
    var costs := CostLines<nat>(t.costs);
    WrittenPieces(u, c, t);
    var front := Preamble(u, c) + (SizeLines<nat>(t.sizes) + [Text(";\n\n")]) +
                 ([Text("set combi[0]:= ;\n")] + CombiLines<nat>(t.combis, "\n"));
    var tail := [Text("\nparam f4 :=\n")] + costs + [Text(";\n")];
    assert p == front + tail;
    CostLinesAt(t.costs);
    forall i | 0 <= i < |t.costs| ensures p[7 + n + m + i] == CostLine(t.costs[i]) {
      assert p[7 + n + m + i] == tail[1 + i] == costs[i];
    }
  }

  /** The cost lines, each at its position. */
  lemma {:induction false} CostLinesAt(costs: seq<CostRow<nat>>)
    ensures forall i :: 0 <= i < |costs| ==> CostLines(costs)[i] == CostLine(costs[i])
  {
    if |costs| > 0 {
      CostLinesAt(costs[..|costs| - 1]);
    }
  }

  /** The file's cost lines are exactly the rows of `param f4`. */
  lemma WrittenCostLines(u: nat, c: nat, t: Tables<nat>, line: Line<nat>)
    ensures line in Written(u, c, t) && line.CostLine? <==> line.CostLine? && line.row in t.costs
  {
    var pre := [CountLine(u), CountLine(c),
                Text("data;\n\n"), Text("\nparam a :=\n")];
    var head := SizeLines<nat>(t.sizes) + [Text(";\n\n")];
    var middle := [Text("set combi[0]:= ;\n")] + CombiLines<nat>(t.combis, "\n");
    var tail := [Text("\nparam f4 :=\n")] + CostLines<nat>(t.costs) + [Text(";\n")];
    WrittenPieces(u, c, t);
    LinesMeaning<nat>(t.sizes, t.combis, "\n", t.costs, line);
    if line.CostLine? {
      assert line !in pre && line !in head && line !in middle;
      assert line in Written(u, c, t) <==> line in tail;
    }
  }

  /**
   * The run ends in one of four ways: the AttributeError of an
   * `extra_algorithms` without `keys()`, before anything else; a stop
   * when the data file exists and `overwrite` is off; the AssertionError
   * of a useful index without a size; or the written file.
   */
  lemma ExpandedOutcomes(qs: seq<Query>, s: Settings, cost: (Query, set<Index>) -> real, sizeOf: Index -> nat,
                         isFile: string -> bool, run: (string, ParamValue) -> seq<Index>)
    ensures var x := Expanded(qs, s, cost, sizeOf, isFile, run);
      var path := DataFilePath(s);
      (path.Ok? <==> s.extraAlgorithms.DictParam?) &&
      (!s.extraAlgorithms.DictParam? ==> x == Err("AttributeError")) &&
      (s.extraAlgorithms.DictParam? ==>
        (x == Ok(None) <==> isFile(path.value) && !s.overwrite) &&
        (!(isFile(path.value) && !s.overwrite) ==>
          var heuristic := HeuristicOf(s.extraAlgorithms.entries, run);
          var useful := Enumerated(qs, s.maxIndexWidth, s.maxIndexesPerQuery, cost, heuristic).useful;
          (x.Err? <==> exists k :: 0 <= k < |useful| && SizeOf(sizeOf, useful[k]) == 0) &&
          (x.Err? ==> x.error == "AssertionError")))
  {
    InputExpanded.FilenameComponentMeaning(s.extraAlgorithms, s.extraAlgorithms);
    if s.extraAlgorithms.DictParam? {
      var heuristic := HeuristicOf(s.extraAlgorithms.entries, run);
      HeuristicOfMeaning(s.extraAlgorithms.entries, run, Index([]));
      TabulatedFails(qs, s.maxIndexWidth, s.maxIndexesPerQuery, cost, heuristic, sizeOf, Positions(|qs|), false);
    }
  }

  /**
   * The written file's first two lines count the size rows and the
   * combination rows, and `param a` holds every heuristic index: its
   * sorted indexes are exactly the heuristic ones and those of the
   * recorded combinations, each once.
   */
  lemma WrittenCountsAndSeed(qs: seq<Query>, s: Settings, cost: (Query, set<Index>) -> real, sizeOf: Index -> nat,
                             heuristic: seq<Index>, x: Index)
    requires Distinct(heuristic)
    ensures var t := SeededTables(qs, s, cost, sizeOf, heuristic);
      var e := Enumerated(qs, s.maxIndexWidth, s.maxIndexesPerQuery, cost, heuristic);
      var sorted := SortTupleIndexes(e.useful);
      t.Ok? ==>
        |e.useful| == |t.value.sizes| && |e.entries| == |t.value.combis| &&
        (x in sorted <==> x in heuristic || exists en :: en in e.entries && x in en.combination)
  {
    var t := SeededTables(qs, s, cost, sizeOf, heuristic);
    var e := Enumerated(qs, s.maxIndexWidth, s.maxIndexesPerQuery, cost, heuristic);
    if t.Ok? {
      TabulatedSizes(qs, s.maxIndexWidth, s.maxIndexesPerQuery, cost, heuristic, sizeOf, Positions(|qs|), false);
      TabulatedCombis(qs, s.maxIndexWidth, s.maxIndexesPerQuery, cost, heuristic, sizeOf, Positions(|qs|), false, 0);
      UsefulIndexesMeaning(heuristic, e.entries, x);
      SortedUseful(e.useful);
      assert x in SortTupleIndexes(e.useful) <==> x in SetOf(SortTupleIndexes(e.useful));
    }
  }

  /**
   * The heuristic indexes change only `param a` and the combination ids:
   * the seeded tables succeed only where those of cophy_algorithm.py do,
   * with the same `param f4`; without heuristic indexes they are the same
   * tables.
   */
  lemma SeededCostsAsCophy(qs: seq<Query>, s: Settings, cost: (Query, set<Index>) -> real, sizeOf: Index -> nat,
                           heuristic: seq<Index>)
    ensures var t := SeededTables(qs, s, cost, sizeOf, heuristic);
      var plain := Cophy.AmplTables(qs, s.maxIndexWidth, s.maxIndexesPerQuery, cost, sizeOf);
      (t.Ok? ==> plain.Ok? && t.value.costs == plain.value.costs) &&
      (heuristic == [] ==> t == plain)
  {
    var seeded := Enumerated(qs, s.maxIndexWidth, s.maxIndexesPerQuery, cost, heuristic);
    var e := Enumerated(qs, s.maxIndexWidth, s.maxIndexesPerQuery, cost, []);
    assert seeded.entries == e.entries && seeded.base == e.base;
    if AllSized(seeded.useful, sizeOf) {
      forall k | 0 <= k < |e.useful| ensures SizeOf(sizeOf, e.useful[k]) != 0 {
        var ix := e.useful[k];
        UsefulIndexesMeaning([], e.entries, ix);
        UsefulIndexesMeaning(heuristic, e.entries, ix);
        var m :| 0 <= m < |seeded.useful| && seeded.useful[m] == ix;
      }
    }
  }

  /**
   * As written, the defaults cannot run: `convert_dict_to_filename_component`
   * calls `keys()` on the text 'none', whatever the workload and the files.
   */
  lemma DefaultsAsWrittenFail(qs: seq<Query>, cost: (Query, set<Index>) -> real, sizeOf: Index -> nat,
                              isFile: string -> bool, run: (string, ParamValue) -> seq<Index>)
    ensures SettingsOf(DefaultParametersAsWritten()).Some?
    ensures Expanded(qs, SettingsOf(DefaultParametersAsWritten()).value, cost, sizeOf, isFile, run) == Err("AttributeError")
  {
  }

  /** The intended defaults, read. */
  lemma DefaultSettings()
    ensures SettingsOf(DefaultParameters()) ==
      Some(Settings(2, 1, "cophy_data_files", "", DictParam([("None", DictParam([]))]), false))
  {
    var p := DefaultParameters();
    assert p["max_index_width"] == IntParam(2) && p["max_indexes_per_query"] == IntParam(1);
    assert p["target_path"] == TextParam("cophy_data_files") && p["benchmark"] == TextParam("");
    assert p["overwrite"] == BoolParam(false);
  }

  /**
   * With the intended defaults the file is `cophy_data_files/data/_2_1-None.dat`,
   * no other algorithm runs, and the tables are those of cophy_algorithm.py.
   */
  lemma DefaultsRun(qs: seq<Query>, cost: (Query, set<Index>) -> real, sizeOf: Index -> nat,
                    run: (string, ParamValue) -> seq<Index>)
    ensures var s := Settings(2, 1, "cophy_data_files", "", DictParam([("None", DictParam([]))]), false);
      SettingsOf(DefaultParameters()) == Some(s) &&
      DataFilePath(s) == Ok("cophy_data_files/data/_2_1-None.dat") &&
      HeuristicIndexes(s.extraAlgorithms, run) == Ok([]) &&
      SeededTables(qs, s, cost, sizeOf, []) == Cophy.AmplTables(qs, 2, 1, cost, sizeOf)
  {
    DefaultSettings();
    DefaultDataFile();
    var s := Settings(2, 1, "cophy_data_files", "", DictParam([("None", DictParam([]))]), false);
    assert HeuristicOf(s.extraAlgorithms.entries, run) == HeuristicOf([], run);
  }

  /** The intended defaults name the file `cophy_data_files/data/_2_1-None.dat`. */
  lemma DefaultDataFile()
    ensures DataFilePath(Settings(2, 1, "cophy_data_files", "", DictParam([("None", DictParam([]))]), false)) ==
      Ok("cophy_data_files/data/_2_1-None.dat")
  {
    var s := Settings(2, 1, "cophy_data_files", "", DictParam([("None", DictParam([]))]), false);
    var keys := InputExpanded.KeysOf(s.extraAlgorithms.entries);
    assert keys == ["None"];
    assert Sort(keys, StrLe) == ["None"];
    assert InputExpanded.FilenameComponent(s.extraAlgorithms) == Ok("None");
    assert IntToString(2) == "2" && IntToString(1) == "1";
    assert DataFilePath(s) == Ok("cophy_data_files" + "/data/" + "" + "_" + "2" + "_" + "1" + "-" + "None" + ".dat");
    assert "cophy_data_files" + "/data/" + "" + "_" + "2" + "_" + "1" + "-" + "None" + ".dat" ==
      "cophy_data_files/data/_2_1-None.dat";
  }
}
