/**
 * selection/index_selection_evaluation.py: the driver's pure parts. A list
 * valued algorithm parameter is unfolded into one configuration per value
 * (`_find_parameter_range`, guarded by `__check_parameters`), and the
 * configuration file and the CSV switch are taken from the arguments
 * (`_parse_command_line_args`, `run`).
 *
 * The parameters of an algorithm configuration are a JSON object, kept
 * here as its entries in order (Python dictionaries iterate in insertion
 * order, which fixes the order of the unfolded configurations). Setting up
 * the database connector, generating tables and queries, running the
 * algorithms and the benchmarks, and logging are not part of this model.
 */
module ParameterRanges {
  import opened Common
  import opened SelectionAlgorithms

  /** The entries of a JSON object, in order. */
  type Entries = seq<(string, ParamValue)>

  /** An entry of `config['algorithms']`: its name and its parameters. */
  datatype AlgorithmConfig = AlgorithmConfig(name: string, parameters: Entries)

  /** A value Python accepts as an integer: an int, or a bool (False is 0, True is 1). */
  function AsInt(v: ParamValue): (r: Option<int>)
    ensures r.Some? <==> v.IntParam? || v.BoolParam?
    ensures v.IntParam? ==> r == Some(v.n)
  {
    match v
    case IntParam(n) => Some(n)
    case BoolParam(b) => Some(if b then 1 else 0)
    case _ => None
  }

  /** The number of list-valued parameters, as `__check_parameters` counts them. */
  function ListCount(ps: Entries): (n: nat)
    ensures n <= |ps|
  {
    if |ps| == 0 then 0 else ListCount(ps[..|ps| - 1]) + (if ps[|ps| - 1].1.ListParam? then 1 else 0)
  }

  /** `range(lo, hi)` as parameter values. */
  function IntRange(lo: int, hi: int): (r: seq<ParamValue>)
    ensures |r| == if lo <= hi then hi - lo else 0
    ensures forall k :: 0 <= k < |r| ==> r[k] == IntParam(lo + k)
  {
    if lo <= hi then seq(hi - lo, k => IntParam(lo + k)) else []
  }

  /**
   * The values a list parameter takes: `range(value[0], value[1] + 1)` is
   * built first, so a list shorter than two raises IndexError and one
   * whose first two entries are not integers raises TypeError, even when
   * it is longer than two and its own entries are used instead.
   */
  function RangeOrList(items: seq<ParamValue>): Result<seq<ParamValue>> {
    if |items| < 2 then Err("IndexError")
    else if AsInt(items[0]).None? || AsInt(items[1]).None? then Err("TypeError")
    else if |items| > 2 then Ok(items)
    else Ok(IntRange(AsInt(items[0]).value, AsInt(items[1]).value + 1))
  }

  /** `new_config['parameters'][key] = v` on a deep copy: only the entries with that key change. */
  function SetParam(ps: Entries, key: string, v: ParamValue): (r: Entries)
    ensures |r| == |ps|
    ensures forall j :: 0 <= j < |ps| ==> r[j].0 == ps[j].0
    ensures forall j :: 0 <= j < |ps| && ps[j].0 == key ==> r[j].1 == v
    ensures forall j :: 0 <= j < |ps| && ps[j].0 != key ==> r[j] == ps[j]
  {
    seq(|ps|, j requires 0 <= j < |ps| => if ps[j].0 == key then (key, v) else ps[j])
  }

  /** One copy of the configuration per value, with `key` set to that value. */
  function WithValues(config: AlgorithmConfig, key: string, values: seq<ParamValue>): (r: seq<AlgorithmConfig>)
    ensures |r| == |values|
  {
    seq(|values|, k requires 0 <= k < |values| => config.(parameters := SetParam(config.parameters, key, values[k])))
  }

  /** The configurations the loop of `_find_parameter_range` appends for the entries `ps`. */
  function Unfold(config: AlgorithmConfig, ps: Entries): Result<seq<AlgorithmConfig>> {
    if |ps| == 0 then Ok([])
    else
      var prev := Unfold(config, ps[..|ps| - 1]);
      var (key, value) := ps[|ps| - 1];
      if prev.Err? || !value.ListParam? then prev
      else
        var values := RangeOrList(value.items);
        if values.Err? then Err(values.error) else Ok(prev.value + WithValues(config, key, values.value))
  }

  /**
   * `_find_parameter_range`: more than one list-valued parameter raises
   * "Too many parameter lists in config"; otherwise the unfolded
   * configurations, or the configuration itself when nothing unfolds.
   */
  function ParameterRange(config: AlgorithmConfig): Result<seq<AlgorithmConfig>> {
    if |config.parameters| > 0 && ListCount(config.parameters) > 1 then Err("Exception")
    else
      var unfolded := if |config.parameters| > 0 then Unfold(config, config.parameters) else Ok([]);
      if unfolded.Err? then unfolded
      else if |unfolded.value| == 0 then Ok([config])
      else unfolded
  }

  /** `__check_parameters`: counts the list-valued parameters and raises when there are several. */
  method CheckParameters(parameters: Entries) returns (error: Option<string>)
    ensures error == if ListCount(parameters) > 1 then Some("Exception") else None
  {
    var counter := 0;
    var i := 0;
    while i < |parameters|
      invariant i <= |parameters| && counter == ListCount(parameters[..i])
    {
      assert parameters[..i + 1][..i] == parameters[..i];
      if parameters[i].1.ListParam? {
        counter := counter + 1;
      }
      i := i + 1;
    }
    assert parameters[..i] == parameters;
    if counter > 1 {
      return Some("Exception");
    }
    return None;
  }

  /** `_find_parameter_range`, appending a deep copy per value of the list parameter. */
  method FindParameterRange(config: AlgorithmConfig) returns (r: Result<seq<AlgorithmConfig>>)
    ensures r == ParameterRange(config)
  {
    var parameters := config.parameters;
    var configs: seq<AlgorithmConfig> := [];
    if |parameters| > 0 {
      var error := CheckParameters(parameters);
      if error.Some? {
        return Err(error.value);
      }
      var i := 0;
      while i < |parameters|
        invariant i <= |parameters| && Unfold(config, parameters[..i]) == Ok(configs)
      {
        assert parameters[..i + 1][..i] == parameters[..i];
        var (key, value) := parameters[i];
        if value.ListParam? {
          var rangeOrList := RangeOrList(value.items);
          if rangeOrList.Err? {
            UnfoldStops(config, parameters, i + 1);
            return Err(rangeOrList.error);
          }
          configs := AppendCopies(configs, config, key, rangeOrList.value);
        }
        i := i + 1;
      }
      assert parameters[..i] == parameters;
      assert Unfold(config, parameters) == Ok(configs);
    }
    if |configs| == 0 {
      assert configs + [config] == [config];
      configs := configs + [config];
    }
    return Ok(configs);
  }

  /** The inner loop: for each value, a copy of the configuration with `key` set to it. */
  method AppendCopies(configs: seq<AlgorithmConfig>, config: AlgorithmConfig, key: string, values: seq<ParamValue>)
    returns (r: seq<AlgorithmConfig>)
    ensures r == configs + WithValues(config, key, values)
  {
    r := configs;
    var k := 0;
    while k < |values|
      invariant k <= |values| && r == configs + WithValues(config, key, values[..k])
    {
      var newConfig := config.(parameters := SetParam(config.parameters, key, values[k]));
      assert WithValues(config, key, values[..k + 1]) == WithValues(config, key, values[..k]) + [newConfig];
      r := r + [newConfig];
      k := k + 1;
    }
    assert values[..k] == values;
  }

  /** Once a list has raised, the loop has raised that error. */
  lemma {:induction false} UnfoldStops(config: AlgorithmConfig, ps: Entries, n: nat)
    requires n <= |ps| && Unfold(config, ps[..n]).Err?
    ensures Unfold(config, ps) == Unfold(config, ps[..n])
    decreases |ps| - n
  {
    if n < |ps| {
      assert ps[..n + 1][..n] == ps[..n];
      UnfoldStops(config, ps, n + 1);
    } else {
      assert ps[..n] == ps;
    }
  }

  // ------------------------------------------------------------ properties

  /** Several list-valued parameters are refused, and that is the only reason for "Exception". */
  lemma TooManyLists(config: AlgorithmConfig)
    ensures ListCount(config.parameters) > 1 ==> ParameterRange(config) == Err("Exception")
    ensures ParameterRange(config) == Err("Exception") ==> ListCount(config.parameters) > 1
  {
    if ListCount(config.parameters) <= 1 && |config.parameters| > 0 {
      UnfoldErrors(config, config.parameters);
    }
  }

  /** The loop only ever fails with the error of a list's `RangeOrList`. */
  lemma {:induction false} UnfoldErrors(config: AlgorithmConfig, ps: Entries)
    ensures Unfold(config, ps).Err? ==> Unfold(config, ps).error in {"IndexError", "TypeError"}
  {
    if |ps| > 0 {
      UnfoldErrors(config, ps[..|ps| - 1]);
    }
  }

  /** Without list-valued parameters nothing unfolds. */
  lemma {:induction false} UnfoldWithoutLists(config: AlgorithmConfig, ps: Entries)
    requires ListCount(ps) == 0
    ensures Unfold(config, ps) == Ok([])
  {
    if |ps| > 0 {
      UnfoldWithoutLists(config, ps[..|ps| - 1]);
    }
  }

  /** With no list-valued parameter (or no parameter at all) exactly the configuration itself is returned. */
  lemma NoListKeepsConfig(config: AlgorithmConfig)
    requires ListCount(config.parameters) == 0
    ensures ParameterRange(config) == Ok([config])
  {
    UnfoldWithoutLists(config, config.parameters);
  }

  /** With one list-valued parameter, at position `j`, the loop yields the copies for its values alone. */
  lemma {:induction false} UnfoldOneList(config: AlgorithmConfig, ps: Entries, j: nat)
    requires j < |ps| && ps[j].1.ListParam? && ListCount(ps) == 1
    ensures Unfold(config, ps) ==
      var values := RangeOrList(ps[j].1.items);
      if values.Err? then Err(values.error) else Ok(WithValues(config, ps[j].0, values.value))
  {
    var init := ps[..|ps| - 1];
    if j == |ps| - 1 {
      UnfoldWithoutLists(config, init);
      var values := RangeOrList(ps[j].1.items);
      if values.Ok? {
        assert [] + WithValues(config, ps[j].0, values.value) == WithValues(config, ps[j].0, values.value);
      }
    } else {
      assert init[j] == ps[j];
      ListCountPositive(init, j);
      UnfoldOneList(config, init, j);
    }
  }

  /** A list at some position counts. */
  lemma {:induction false} ListCountPositive(ps: Entries, j: nat)
    requires j < |ps| && ps[j].1.ListParam?
    ensures ListCount(ps) >= 1
  {
    if j < |ps| - 1 {
      assert ps[..|ps| - 1][j] == ps[j];
      ListCountPositive(ps[..|ps| - 1], j);
    }
  }

  /**
   * The single list parameter `[a, b]` of integers unfolds into one
   * configuration per `i` in `a..b` inclusive, each with that parameter
   * set to `i`; an empty range (b < a) leaves the configuration itself.
   */
  lemma RangeUnfolds(config: AlgorithmConfig, j: nat, a: int, b: int)
    requires j < |config.parameters| && ListCount(config.parameters) == 1
    requires config.parameters[j].1 == ListParam([IntParam(a), IntParam(b)])
    ensures var r := ParameterRange(config);
      r.Ok? && (a <= b ==> r.value == WithValues(config, config.parameters[j].0, IntRange(a, b + 1)) &&
                            |r.value| == b - a + 1) &&
      (b < a ==> r.value == [config])
  {
    UnfoldOneList(config, config.parameters, j);
  }

  /**
   * A single list parameter longer than two, whose first two entries are
   * integers, unfolds into one configuration per entry, in order.
   */
  lemma ListUnfolds(config: AlgorithmConfig, j: nat)
    requires j < |config.parameters| && ListCount(config.parameters) == 1
    requires config.parameters[j].1.ListParam? && |config.parameters[j].1.items| > 2
    requires AsInt(config.parameters[j].1.items[0]).Some? && AsInt(config.parameters[j].1.items[1]).Some?
    ensures ParameterRange(config) == Ok(WithValues(config, config.parameters[j].0, config.parameters[j].1.items))
  {
    UnfoldOneList(config, config.parameters, j);
  }

  /** A longer list whose first entries are not integers (strings, say) raises TypeError rather than unfolding. */
  lemma NonIntegerListRejected(config: AlgorithmConfig, j: nat)
    requires j < |config.parameters| && ListCount(config.parameters) == 1
    requires config.parameters[j].1.ListParam? && |config.parameters[j].1.items| >= 2
    requires AsInt(config.parameters[j].1.items[0]).None?
    ensures ParameterRange(config) == Err("TypeError")
  {
    UnfoldOneList(config, config.parameters, j);
  }

  /**
   * Every unfolded configuration is a copy of the original with the same
   * name and the same keys in the same order; it differs at most in the
   * entries of the list parameter's key, which all hold one value of the
   * list.
   */
  lemma CopiesDifferOnlyAtKey(config: AlgorithmConfig, j: nat, c: AlgorithmConfig)
    requires j < |config.parameters| && config.parameters[j].1.ListParam? && ListCount(config.parameters) == 1
    requires ParameterRange(config).Ok? && c in ParameterRange(config).value
    ensures c.name == config.name && |c.parameters| == |config.parameters|
    ensures forall i :: 0 <= i < |c.parameters| ==> c.parameters[i].0 == config.parameters[i].0
    ensures forall i :: 0 <= i < |c.parameters| && config.parameters[i].0 != config.parameters[j].0 ==>
      c.parameters[i] == config.parameters[i]
    ensures c != config ==>
      RangeOrList(config.parameters[j].1.items).Ok? &&
      exists v :: v in RangeOrList(config.parameters[j].1.items).value &&
        forall i :: 0 <= i < |c.parameters| && config.parameters[i].0 == config.parameters[j].0 ==> c.parameters[i].1 == v
  {
    UnfoldOneList(config, config.parameters, j);
    var values := RangeOrList(config.parameters[j].1.items);
    if c != config {
      var copies := WithValues(config, config.parameters[j].0, values.value);
      var k :| 0 <= k < |copies| && copies[k] == c;
      assert values.value[k] in values.value;
    }
  }

  // ------------------------------------------------------------ arguments

  /** The first argument containing `.json`, if any. */
  function FirstJson(arguments: seq<string>): (r: Option<string>)
    ensures r.Some? ==> r.value in arguments && Contains(r.value, ".json")
    ensures r.None? <==> forall a :: a in arguments ==> !Contains(a, ".json")
  {
    if |arguments| == 0 then None
    else if Contains(arguments[0], ".json") then Some(arguments[0])
    else FirstJson(arguments[1..])
  }

  /** `FirstJson` picks the earliest match: no argument before it contains `.json`. */
  lemma {:induction false} FirstJsonIsFirst(arguments: seq<string>)
    requires FirstJson(arguments).Some?
    ensures exists i :: 0 <= i < |arguments| && arguments[i] == FirstJson(arguments).value &&
                        (forall k :: 0 <= k < i ==> !Contains(arguments[k], ".json"))
  {
    if !Contains(arguments[0], ".json") {
      FirstJsonIsFirst(arguments[1..]);
      var i :| 0 <= i < |arguments[1..]| && arguments[1..][i] == FirstJson(arguments[1..]).value &&
        forall k :: 0 <= k < i ==> !Contains(arguments[1..][k], ".json");
      assert arguments[i + 1] == FirstJson(arguments).value;
      forall k | 0 <= k < i + 1 ensures !Contains(arguments[k], ".json") {
        if k > 0 {
          assert arguments[k] == arguments[1..][k - 1];
        }
      }
    }
  }

  /** The part of `IndexSelection` the arguments change. */
  class IndexSelection {
    var defaultConfigFile: string
    var disableCsv: bool

    constructor()
      ensures defaultConfigFile == "example_configs/config.json" && !disableCsv
    {
      defaultConfigFile := "example_configs/config.json";
      disableCsv := false;
    }

    /**
     * `_parse_command_line_args` over the given arguments: `DISABLE_CSV`
     * switches the CSV output off (it is never switched back on), and the
     * first argument containing `.json` is returned.
     */
    method ParseCommandLineArgs(arguments: seq<string>) returns (configFile: Option<string>)
      modifies this`disableCsv
      ensures disableCsv == (old(disableCsv) || "DISABLE_CSV" in arguments)
      ensures configFile == FirstJson(arguments)
    {
      if "DISABLE_CSV" in arguments {
        disableCsv := true;
      }
      var i := 0;
      while i < |arguments|
        invariant i <= |arguments| && FirstJson(arguments) == FirstJson(arguments[i..])
      {
        if Contains(arguments[i], ".json") {
          return Some(arguments[i]);
        }
        assert arguments[i..][1..] == arguments[i + 1..];
        i := i + 1;
      }
      return None;
    }

    /** The configuration file `run` uses: the one named in the arguments, else the default. */
    method ConfigFile(arguments: seq<string>) returns (configFile: string)
      modifies this`disableCsv
      ensures disableCsv == (old(disableCsv) || "DISABLE_CSV" in arguments)
      ensures configFile == if FirstJson(arguments).Some? then FirstJson(arguments).value else defaultConfigFile
    {
      var given := ParseCommandLineArgs(arguments);
      if given.None? || given.value == "" {
        configFile := defaultConfigFile;
      } else {
        configFile := given.value;
      }
    }
  }
}
