/**
 * selection/algorithms/cophy_input_expanded.py: the CoPhy input as a
 * dictionary (`cophy_dict`) instead of printed text, after checks on the
 * output files it would be written to. Whether a file exists is the
 * parameter `isFile`; the written files themselves are not part of this
 * model (the writing calls are commented out in the source).
 */
module CophyInputExpanded {
  import opened Common
  import opened Indexes
  import opened Workloads
  import opened SelectionAlgorithms
  import opened CophyEnumeration
  import InputGeneration = CophyInputGeneration

  /** `DEFAULT_PARAMETERS`. */
  function DefaultParameters(): (p: Params)
    ensures p.Keys == {"max_index_width", "max_indexes_per_query", "benchmark_name", "json_path", "file_path",
                       "overwrite", "extra_algorithms"}
    ensures p["max_index_width"] == IntParam(2) && p["max_indexes_per_query"] == IntParam(1)
    ensures p["extra_algorithms"] == DictParam([("None", DictParam([]))])
  {
    map["max_index_width" := IntParam(2), "max_indexes_per_query" := IntParam(1),
        "benchmark_name" := TextParam("benchmark"), "json_path" := TextParam("cophy_json"),
        "file_path" := TextParam("cophy_data"), "overwrite" := BoolParam(false),
        "extra_algorithms" := DictParam([("None", DictParam([]))])]
  }

  /**
   * The parameters the algorithm reads, with the types of their defaults;
   * `extra_algorithms` stays a raw value since only a dict has `keys()`.
   */
  datatype Settings = Settings(maxIndexWidth: int, maxIndexesPerQuery: int, benchmarkName: string,
                               jsonPath: string, filePath: string, overwrite: bool, extraAlgorithms: ParamValue)

  /** The settings of a parameter dict whose values have the types of the defaults. */
  function SettingsOf(p: Params): Option<Settings> {
    if "max_index_width" in p && p["max_index_width"].IntParam? &&
       "max_indexes_per_query" in p && p["max_indexes_per_query"].IntParam? &&
       "benchmark_name" in p && p["benchmark_name"].TextParam? &&
       "json_path" in p && p["json_path"].TextParam? && "file_path" in p && p["file_path"].TextParam? &&
       "overwrite" in p && p["overwrite"].BoolParam? && "extra_algorithms" in p
    then Some(Settings(p["max_index_width"].n, p["max_indexes_per_query"].n, p["benchmark_name"].s,
                       p["json_path"].s, p["file_path"].s, p["overwrite"].b, p["extra_algorithms"]))
    else None
  }

  lemma DefaultSettings()
    ensures SettingsOf(DefaultParameters()) ==
      Some(Settings(2, 1, "benchmark", "cophy_json", "cophy_data", false, DictParam([("None", DictParam([]))])))
  {
  }

  // ------------------------------------------------------------ file names

  /** The keys of a dict, in order. */
  function KeysOf(entries: seq<(string, ParamValue)>): (r: seq<string>)
    ensures |r| == |entries| && forall k :: 0 <= k < |entries| ==> r[k] == entries[k].0
  {
    seq(|entries|, k requires 0 <= k < |entries| => entries[k].0)
  }

  /**
   * `convert_dict_to_filename_component`: the dict's keys sorted and joined
   * by '-'; a value without `keys()` raises an AttributeError.
   */
  function FilenameComponent(v: ParamValue): Result<string> {
    if v.DictParam? then Ok(Join("-", Sort(KeysOf(v.entries), StrLe))) else Err("AttributeError")
  }

  /**
   * The component exists exactly for dicts; it lists their keys sorted,
   * each once per occurrence, and splits back into them when no key holds
   * a '-'; it does not depend on the order of the keys.
   */
  lemma FilenameComponentMeaning(v: ParamValue, w: ParamValue)
    ensures FilenameComponent(v).Ok? <==> v.DictParam?
    ensures FilenameComponent(v).Err? ==> FilenameComponent(v).error == "AttributeError"
    ensures v.DictParam? ==>
      var names := Sort(KeysOf(v.entries), StrLe);
      SortedBy(names, StrLe) && multiset(names) == multiset(KeysOf(v.entries)) &&
      FilenameComponent(v).value == Join("-", names) &&
      (|names| > 0 && (forall k :: 0 <= k < |v.entries| ==> !Contains(v.entries[k].0, "-")) ==>
        Split(FilenameComponent(v).value, "-") == names)
    ensures v.DictParam? && w.DictParam? && multiset(KeysOf(v.entries)) == multiset(KeysOf(w.entries)) ==>
      FilenameComponent(v) == FilenameComponent(w)
  {
    StrLeIsTotal();
    if v.DictParam? {
      var keys := KeysOf(v.entries);
      var names := Sort(keys, StrLe);
      SortSorted(keys, StrLe);
      if |names| > 0 && forall k :: 0 <= k < |v.entries| ==> !Contains(v.entries[k].0, "-") {
        forall k | 0 <= k < |names| ensures !Contains(names[k], ['-']) {
          assert names[k] in multiset(keys);
          var i :| 0 <= i < |keys| && keys[i] == names[k];
        }
        SplitJoinUnit('-', names);
      }
      if w.DictParam? && multiset(keys) == multiset(KeysOf(w.entries)) {
        SortSorted(KeysOf(w.entries), StrLe);
        StrSortedUnique(names, Sort(KeysOf(w.entries), StrLe));
      }
    }
  }

  /** `<benchmark_name>_<max_index_width>_<max_indexes_per_query>-<extra algorithms>`, shared by both file names. */
  function FileStem(s: Settings): Result<string> {
    var component := FilenameComponent(s.extraAlgorithms);
    if component.Err? then Err(component.error)
    else Ok(s.benchmarkName + "_" + IntToString(s.maxIndexWidth) + "_" + IntToString(s.maxIndexesPerQuery) + "-" +
            component.value)
  }

  /** `datafile_path` (lines 41-44). */
  function DataFilePath(s: Settings): Result<string> {
    var stem := FileStem(s);
    if stem.Err? then Err(stem.error) else Ok(s.filePath + "/" + stem.value + ".dat")
  }

  /** `json_file_path` (lines 53-56). */
  function JsonFilePath(s: Settings): Result<string> {
    var stem := FileStem(s);
    if stem.Err? then Err(stem.error) else Ok(s.jsonPath + "/" + stem.value + ".json")
  }

  /** The two files share the stem, in their own directories with their own extensions. */
  lemma FilePathsShareStem(s: Settings)
    ensures DataFilePath(s).Ok? <==> s.extraAlgorithms.DictParam?
    ensures JsonFilePath(s).Ok? <==> s.extraAlgorithms.DictParam?
    ensures s.extraAlgorithms.DictParam? ==>
      var stem := FileStem(s).value;
      DataFilePath(s).value == s.filePath + "/" + stem + ".dat" &&
      JsonFilePath(s).value == s.jsonPath + "/" + stem + ".json" &&
      stem[|stem| - |FilenameComponent(s.extraAlgorithms).value|..] == FilenameComponent(s.extraAlgorithms).value
  {
  }

  // ------------------------------------------------------------ output checks

  /**
   * Lines 40-61 as written: `true` when a data file exists that must not
   * be overwritten (the run returns [] at once). The JSON check tests the
   * data file again, and with no `file_path` it reads `datafile_path`
   * before any assignment.
   */
  function OutputChecksAsWritten(s: Settings, isFile: string -> bool): Result<bool> {
    var dat := DataFilePath(s);
    if s.filePath != "" && dat.Err? then Err(dat.error)
    else if s.filePath != "" && isFile(dat.value) && !s.overwrite then Ok(true)
    else if s.jsonPath != "" then
      var json := JsonFilePath(s);
      if json.Err? then Err(json.error)
      else if s.filePath == "" then Err("UnboundLocalError")
      else Ok(isFile(dat.value) && !s.overwrite)
    else Ok(false)
  }

  /** Lines 40-61 as intended: the JSON check tests the JSON file. */
  function OutputChecks(s: Settings, isFile: string -> bool): Result<bool> {
    var dat := DataFilePath(s);
    if s.filePath != "" && dat.Err? then Err(dat.error)
    else if s.filePath != "" && isFile(dat.value) && !s.overwrite then Ok(true)
    else if s.jsonPath != "" then
      var json := JsonFilePath(s);
      if json.Err? then Err(json.error) else Ok(isFile(json.value) && !s.overwrite)
    else Ok(false)
  }

  /**
   * As written, a `json_path` without a `file_path` (for instance
   * `file_path` '' with the default `json_path`) raises UnboundLocalError,
   * and with both paths set an existing JSON file never stops the run.
   */
  lemma OutputChecksAsWrittenMisses(s: Settings, isFile: string -> bool)
    requires s.extraAlgorithms.DictParam?
    ensures s.filePath == "" && s.jsonPath != "" ==> OutputChecksAsWritten(s, isFile) == Err("UnboundLocalError")
    ensures s.filePath != "" ==>
      OutputChecksAsWritten(s, isFile) == Ok(isFile(DataFilePath(s).value) && !s.overwrite)
    ensures var t := s.(filePath := "", jsonPath := "cophy_json");
      OutputChecksAsWritten(t, isFile) == Err("UnboundLocalError") && OutputChecks(t, isFile).Ok?
  {
  }

  /**
   * As intended, the checks fail only for an `extra_algorithms` without
   * `keys()` when some path is set, and stop the run exactly when a set
   * path's file exists and `overwrite` is off.
   */
  lemma OutputChecksMeaning(s: Settings, isFile: string -> bool)
    ensures OutputChecks(s, isFile).Err? <==> (s.filePath != "" || s.jsonPath != "") && !s.extraAlgorithms.DictParam?
    ensures OutputChecks(s, isFile).Err? ==> OutputChecks(s, isFile).error == "AttributeError"
    ensures OutputChecks(s, isFile).Ok? ==>
      (OutputChecks(s, isFile).value <==>
        !s.overwrite &&
        ((s.filePath != "" && isFile(DataFilePath(s).value)) || (s.jsonPath != "" && isFile(JsonFilePath(s).value))))
  {
  }

  // ------------------------------------------------------------ extra algorithms

  /** The keys of `algorithms` in `extra_algorithms`, the same in cophy_expanded.py. */
  const KnownAlgorithms: seq<string> := ["anytime", "auto_admin", "db2advis", "dexter", "drop", "extend", "relaxation"]

  /**
   * A dict of extra algorithms that names one of them. As written the
   * first such algorithm runs `calculate_best_indexes`, which after a
   * successful body reads the undefined `cost_evaluation.cache_hits`
   * (selection/selection_algorithm.py:30, 39-40): an AttributeError.
   */
  predicate NamesKnownAlgorithm(extras: ParamValue) {
    extras.DictParam? && exists k :: 0 <= k < |extras.entries| && extras.entries[k].0 in KnownAlgorithms
  }

  // ------------------------------------------------------------ the dict

  /** The entries of `cophy_dict` the model keeps (not the time and cost-request counters). */
  datatype CophyDict = CophyDict(numUsefulIndexes: nat, numCombinationCosts: nat, queries: seq<QueryNr>,
                                 indexCosts: seq<IndexRow>, combi: seq<CombiRow>, f4: seq<CostRow<QueryNr>>)

  /** Lines 77-180: the enumeration from no useful index and the dict built from it. */
  function ExpandedDict(qs: seq<Query>, s: Settings, cost: (Query, set<Index>) -> real, sizeOf: Index -> nat)
    : Result<CophyDict>
  {
    var e := Enumerated(qs, s.maxIndexWidth, s.maxIndexesPerQuery, cost, []);
    var t := Tabulated(qs, s.maxIndexWidth, s.maxIndexesPerQuery, cost, [], sizeOf, QueryNumbers(qs), true);
    if t.Err? then Err(t.error)
    else Ok(CophyDict(|e.useful|, |e.entries|, QueryNumbers(qs), t.value.sizes, t.value.combis, t.value.costs))
  }

  /**
   * `_calculate_best_indexes` as intended: `None` when an existing file
   * stops the run, otherwise the dict; `extra_algorithms` must have
   * `keys()` (line 204).
   */
  function Expanded(qs: seq<Query>, s: Settings, cost: (Query, set<Index>) -> real, sizeOf: Index -> nat,
                    isFile: string -> bool): Result<Option<CophyDict>>
  {
    var checks := OutputChecks(s, isFile);
    if checks.Err? then Err(checks.error)
    else if checks.value then Ok(None)
    else if !s.extraAlgorithms.DictParam? then Err("AttributeError")
    else
      var d := ExpandedDict(qs, s, cost, sizeOf);
      if d.Err? then Err(d.error) else Ok(Some(d.value))
  }

  /**
   * `_calculate_best_indexes` as written: the output checks of lines
   * 40-61 as written, then the extra algorithms (line 75), of which a
   * known one fails with AttributeError, then the one-argument `Workload`
   * (lines 81, 112) or the missing `cost_requests` (line 125) fails
   * before the dict is built.
   */
  function ExpandedAsWritten(qs: seq<Query>, s: Settings, isFile: string -> bool): Result<Option<CophyDict>> {
    var checks := OutputChecksAsWritten(s, isFile);
    if checks.Err? then Err(checks.error)
    else if checks.value then Ok(None)
    else if !s.extraAlgorithms.DictParam? then Err("AttributeError")
    else if NamesKnownAlgorithm(s.extraAlgorithms) then Err("AttributeError")
    else
      var e := EnumerationAsWritten(qs);
      if e.Err? then Err(e.error) else Ok(None)
  }

  /**
   * As written no dict is ever built: a run that the checks let pass fails,
   * with a TypeError when there are queries and no known extra algorithm
   * is named, otherwise with an AttributeError; as intended the same run
   * builds the dict unless a useful index has no size.
   */
  lemma ExpandedAsWrittenFails(qs: seq<Query>, s: Settings, cost: (Query, set<Index>) -> real, sizeOf: Index -> nat,
                               isFile: string -> bool)
    ensures ExpandedAsWritten(qs, s, isFile).Ok? ==> ExpandedAsWritten(qs, s, isFile) == Ok(None)
    ensures OutputChecksAsWritten(s, isFile) == Ok(false) && s.extraAlgorithms.DictParam? ==>
      ExpandedAsWritten(qs, s, isFile) ==
        Err(if |qs| > 0 && !NamesKnownAlgorithm(s.extraAlgorithms) then "TypeError" else "AttributeError")
    ensures OutputChecks(s, isFile) == Ok(false) && s.extraAlgorithms.DictParam? ==>
      (Expanded(qs, s, cost, sizeOf, isFile).Ok? <==> ExpandedDict(qs, s, cost, sizeOf).Ok?)
  {
  }

  /** The `queries` loop (lines 131-133). */
  method QueryNumberList(qs: seq<Query>) returns (r: seq<QueryNr>)
    ensures r == QueryNumbers(qs)
  {
    r := [];
    for j := 0 to |qs|
      invariant r == QueryNumbers(qs[..j])
    {
      assert qs[..j + 1][..j] == qs[..j];
      r := r + [qs[j].nr];
    }
    assert qs[..|qs|] == qs;
  }

  /** `_calculate_best_indexes`: the checks, the enumeration and the dict; it returns the empty list. */
  method CalculateBestIndexes(w: Workload, s: Settings, cost: (Query, set<Index>) -> real, sizeOf: Index -> nat,
                              isFile: string -> bool)
    returns (r: Result<seq<Index>>, dict: Option<CophyDict>)
    ensures var x := Expanded(w.queries, s, cost, sizeOf, isFile);
      r == (if x.Ok? then Ok([]) else Err(x.error)) && (x.Ok? ==> dict == x.value)
  {
    var checks := OutputChecks(s, isFile);
    if checks.Err? {
      return Err(checks.error), None;
    }
    if checks.value {
      return Ok([]), None;
    }
    if !s.extraAlgorithms.DictParam? {
      return Err("AttributeError"), None;
    }
    var e := Enumerate(w.queries, s.maxIndexWidth, s.maxIndexesPerQuery, cost, []);
    var queries := QueryNumberList(w.queries);
    var t := Tabulate(w.queries, s.maxIndexWidth, s.maxIndexesPerQuery, cost, [], sizeOf, queries, true);
    if t.Err? {
      return Err(t.error), None;
    }
    dict := Some(CophyDict(|e.useful|, |e.entries|, queries, t.value.sizes, t.value.combis, t.value.costs));
    r := Ok([]);
  }

  // ------------------------------------------------------------ properties

  /**
   * The dict counts the useful indexes and the recorded combinations, one
   * `index_costs` entry per useful index and one `combi` entry per
   * recorded combination; `queries` lists every `query.nr` in workload
   * order; and `f4` holds exactly the rows cophy_input_generation.py
   * prints. The dict is missing exactly when some useful index has no size.
   */
  lemma ExpandedDictMeaning(qs: seq<Query>, s: Settings, cost: (Query, set<Index>) -> real, sizeOf: Index -> nat)
    ensures var d := ExpandedDict(qs, s, cost, sizeOf);
      var e := Enumerated(qs, s.maxIndexWidth, s.maxIndexesPerQuery, cost, []);
      var printed := InputGeneration.AmplTables(qs, s.maxIndexWidth, s.maxIndexesPerQuery, cost, sizeOf);
      (d.Err? <==> exists k :: 0 <= k < |e.useful| && SizeOf(sizeOf, e.useful[k]) == 0) &&
      (d.Ok? ==>
        d.value.numUsefulIndexes == |e.useful| == |d.value.indexCosts| &&
        d.value.numCombinationCosts == |e.entries| == |d.value.combi| &&
        |d.value.queries| == |qs| && (forall j :: 0 <= j < |qs| ==> d.value.queries[j] == qs[j].nr) &&
        printed.Ok? && d.value.indexCosts == printed.value.sizes && d.value.combi == printed.value.combis &&
        d.value.f4 == printed.value.costs)
  {
    var e := Enumerated(qs, s.maxIndexWidth, s.maxIndexesPerQuery, cost, []);
    TabulatedFails(qs, s.maxIndexWidth, s.maxIndexesPerQuery, cost, [], sizeOf, QueryNumbers(qs), true);
    TabulatedSizes(qs, s.maxIndexWidth, s.maxIndexesPerQuery, cost, [], sizeOf, QueryNumbers(qs), true);
    TabulatedCombis(qs, s.maxIndexWidth, s.maxIndexesPerQuery, cost, [], sizeOf, QueryNumbers(qs), true, 0);
    var ix := Index([]);
    UsefulIndexesMeaning([], e.entries, ix);
    SortedUseful(e.useful);
  }

  /**
   * The run ends in one of four ways: an error from the checks, a stop
   * before any enumeration when a file exists that must not be
   * overwritten, the AttributeError of an `extra_algorithms` without
   * `keys()`, or the dict (or the AssertionError of an index without size).
   */
  lemma ExpandedOutcomes(qs: seq<Query>, s: Settings, cost: (Query, set<Index>) -> real, sizeOf: Index -> nat,
                         isFile: string -> bool)
    ensures var x := Expanded(qs, s, cost, sizeOf, isFile);
      (x == Ok(None) <==> OutputChecks(s, isFile) == Ok(true)) &&
      (x.Err? && x.error == "AttributeError" <==> !s.extraAlgorithms.DictParam?) &&
      (s.extraAlgorithms.DictParam? && !(OutputChecks(s, isFile) == Ok(true)) ==>
        x == (var d := ExpandedDict(qs, s, cost, sizeOf); if d.Err? then Err(d.error) else Ok(Some(d.value))))
  {
    OutputChecksMeaning(s, isFile);
    var d := ExpandedDict(qs, s, cost, sizeOf);
    TabulatedFails(qs, s.maxIndexWidth, s.maxIndexesPerQuery, cost, [], sizeOf, QueryNumbers(qs), true);
  }
}
