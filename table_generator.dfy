/**
 * selection/table_generator.py: the generator names the benchmark's
 * database, checks the benchmark and scale factor, lists the generated
 * table files and reads the tables and their columns back from the
 * `create table` statements.
 *
 * The listing of the data directory, the statements file's content, the
 * connector's database names and whether the host is macOS are
 * parameters; running `make`, `dbgen`/`dsdgen`, creating the database and
 * loading the data are not part of this model. Python's `str()` of the
 * scale factor is given as its text `scaleText`.
 */
module TableGeneration {
  import opened Common
  import opened Schema

  // ------------------------------------------------------------ database name

  /** `str.replace` of one character by another, character by character. */
  function ReplaceChar(s: string, a: char, b: char): (r: string)
    ensures |r| == |s|
    ensures forall k :: 0 <= k < |s| ==> r[k] == if s[k] == a then b else s[k]
  {
    seq(|s|, k requires 0 <= k < |s| => if s[k] == a then b else s[k])
  }

  lemma ReplaceCharConcat(x: string, y: string, a: char, b: char)
    ensures ReplaceChar(x + y, a, b) == ReplaceChar(x, a, b) + ReplaceChar(y, a, b)
  {
    assert |ReplaceChar(x + y, a, b)| == |ReplaceChar(x, a, b) + ReplaceChar(y, a, b)|;
  }

  /** A text without the character is left as it is. */
  lemma ReplaceCharAbsent(p: string, a: char, b: char)
    requires !Contains(p, [a])
    ensures ReplaceChar(p, a, b) == p
  {
    forall k | 0 <= k < |p| ensures p[k] != a {
      if p[k] == a {
        assert OccursAt(p, [a], k) by { assert p[k..k + 1] == [a]; }
      }
    }
  }

  /** Mapping the separator character over a join changes only the separators. */
  lemma {:induction false} ReplaceCharJoin(parts: seq<string>, a: char, b: char)
    requires forall k :: 0 <= k < |parts| ==> !Contains(parts[k], [a])
    ensures ReplaceChar(Join([a], parts), a, b) == Join([b], parts)
  {
    if |parts| == 1 {
      ReplaceCharAbsent(parts[0], a, b);
    } else if |parts| > 1 {
      var rest := parts[1..];
      ReplaceCharJoin(rest, a, b);
      ReplaceCharAbsent(parts[0], a, b);
      ReplaceCharConcat(parts[0] + [a], Join([a], rest), a, b);
      ReplaceCharConcat(parts[0], [a], a, b);
      assert ReplaceChar([a], a, b) == [b];
    }
  }

  /** Python's `replace` of a one-character pattern maps each character. */
  lemma ReplaceOneChar(s: string, a: char, b: char)
    ensures Replace(s, [a], [b]) == ReplaceChar(s, a, b)
  {
    ReplaceCharJoin(Split(s, [a]), a, b);
  }

  const DatabasePrefix: string := "indexselection_"

  /** `database_name`. */
  function DatabaseName(benchmarkName: string, scaleText: string): string {
    DatabasePrefix + benchmarkName + "___" + Replace(scaleText, ".", "_")
  }

  /**
   * The name is the prefix, the benchmark, three underscores and the scale
   * factor with each `.` turned into `_`: the scale part has the length
   * of the scale factor's text and no `.` left.
   */
  lemma DatabaseNameMeaning(benchmarkName: string, scaleText: string)
    ensures var r := DatabaseName(benchmarkName, scaleText);
      var n := |DatabasePrefix| + |benchmarkName| + 3;
      |r| == n + |scaleText| && r[..n] == DatabasePrefix + benchmarkName + "___" &&
      forall k :: 0 <= k < |scaleText| ==> r[n + k] == (if scaleText[k] == '.' then '_' else scaleText[k])
  {
    ReplaceOneChar(scaleText, '.', '_');
    assert "." == ['.'] && "_" == ['_'];
  }

  /** The name `tests/test_table_generator.py` expects for TPC-H at scale factor 0.001. */
  lemma DatabaseNameExample(benchmarkName: string, scaleText: string)
    requires benchmarkName == "tpch" && scaleText == "0.001"
    ensures DatabaseName(benchmarkName, scaleText) == "indexselection_tpch___0_001"
  {
    DatabaseNameMeaning(benchmarkName, scaleText);
    var r := DatabaseName(benchmarkName, scaleText);
    assert |DatabasePrefix + benchmarkName + "___"| == 22 && |r| == 27;
    assert scaleText[0] == '0' && scaleText[1] == '.' && scaleText[2] == '0' && scaleText[3] == '0' && scaleText[4] == '1';
    assert r[22 + 0] == '0' && r[22 + 1] == '_' && r[22 + 2] == '0' && r[22 + 3] == '0' && r[22 + 4] == '1';
    assert r[22..] == "0_001";
    assert r == r[..22] + r[22..];
  }

  // ------------------------------------------------------------ `_prepare`

  /** What `_prepare` sets up for a benchmark. */
  datatype Setup = Setup(directory: string, statementsFile: string, cmd: seq<string>, makeCommand: seq<string>)

  /** `_prepare`: TPC-H, TPC-DS at a whole scale factor, or an error. */
  function Prepare(benchmarkName: string, scaleFactor: real, scaleText: string, darwin: bool): Result<Setup> {
    if benchmarkName == "tpch" then
      Ok(Setup("./tpch-kit/dbgen", "./tpch-kit/dbgen/dss.ddl", ["./dbgen", "-s", scaleText, "-f"],
               ["make", "DATABASE=POSTGRESQL"] + (if darwin then ["MACHINE=MACOS"] else [])))
    else if benchmarkName == "tpcds" then
      if Trunc(scaleFactor) as real - scaleFactor != 0.0 then Err("Exception")
      else
        Ok(Setup("./tpcds-kit/tools", "./tpcds-kit/tools/tpcds.sql", ["./dsdgen", "-SCALE", scaleText, "-FORCE"],
                 ["make"] + (if darwin then ["OS=MACOS"] else [])))
    else Err("NotImplementedError")
  }

  /** A number is whole exactly when its truncation gives it back. */
  lemma TruncWhole(x: real)
    ensures Trunc(x) as real == x <==> x.Floor as real == x
  {
    if x < 0.0 {
      var n := (-x).Floor;
      if n as real == -x {
        assert (-n) as real == x;
        assert ((-n) as real).Floor == -n;
      }
      if x.Floor as real == x {
        assert (-(x.Floor)) as real == -x;
        assert ((-(x.Floor)) as real).Floor == -(x.Floor);
      }
    }
  }

  /**
   * Only TPC-H and TPC-DS are generated, TPC-DS only at a whole scale
   * factor, and any other benchmark is not implemented.
   */
  lemma PrepareMeaning(benchmarkName: string, scaleFactor: real, scaleText: string, darwin: bool)
    ensures Prepare(benchmarkName, scaleFactor, scaleText, darwin).Ok? <==>
      benchmarkName == "tpch" || (benchmarkName == "tpcds" && scaleFactor.Floor as real == scaleFactor)
    ensures benchmarkName != "tpch" && benchmarkName != "tpcds" ==>
      Prepare(benchmarkName, scaleFactor, scaleText, darwin) == Err("NotImplementedError")
    ensures benchmarkName == "tpcds" && scaleFactor.Floor as real != scaleFactor ==>
      Prepare(benchmarkName, scaleFactor, scaleText, darwin) == Err("Exception")
  {
    TruncWhole(scaleFactor);
  }

  /** The generator is run with the scale factor's text as its third argument. */
  lemma PrepareCommand(benchmarkName: string, scaleFactor: real, scaleText: string, darwin: bool)
    ensures var r := Prepare(benchmarkName, scaleFactor, scaleText, darwin);
      r.Ok? ==>
        |r.value.cmd| == 4 && r.value.cmd[2] == scaleText && r.value.makeCommand[0] == "make" &&
        (darwin <==> |r.value.makeCommand| == (if benchmarkName == "tpch" then 3 else 2))
  {
  }

  /** The test's TPC-DS scale factor 0.002 is rejected, an unknown benchmark too. */
  lemma PrepareRejects()
    ensures Prepare("tpcds", 0.002, "0.002", false) == Err("Exception")
    ensures Prepare("not_tpch", 0.001, "0.001", false) == Err("NotImplementedError")
  {
    assert Trunc(0.002) == 0;
  }

  // ------------------------------------------------------------ table files

  /** A data file of the generators: its name contains `.tbl`, `.dat` or `.csv`. */
  predicate IsTableFile(filename: string) {
    Contains(filename, ".tbl") || Contains(filename, ".dat") || Contains(filename, ".csv")
  }

  /** `_table_files` on the listing of the data directory: the data files, in listing order. */
  function TableFiles(files: seq<string>): (r: seq<string>)
    ensures forall f :: f in r <==> f in files && IsTableFile(f)
    ensures |r| <= |files|
  {
    Filter(files, IsTableFile)
  }

  /** The table a data file is loaded into: the file name without the three extensions. */
  function TableOfFile(filename: string): string {
    Replace(Replace(Replace(filename, ".tbl", ""), ".dat", ""), ".csv", "")
  }

  predicate NoDot(s: string) {
    forall k :: 0 <= k < |s| ==> s[k] != '.'
  }

  /** In a name without `.` followed by one extension, a pattern starting with `.` can only occur at the extension. */
  lemma {:induction false} OnlyAtExtension(name: string, ext: string, pattern: string, j: nat)
    requires NoDot(name) && |pattern| > 0 && pattern[0] == '.'
    requires OccursAt(name + ext, pattern, j)
    ensures j >= |name|
  {
  }

  /** Removing an extension from a name without `.` that ends with it leaves the name. */
  lemma RemoveExtension(name: string, ext: string)
    requires NoDot(name) && |ext| > 0 && ext[0] == '.'
    ensures Replace(name + ext, ext, "") == name
  {
    var s := name + ext;
    assert OccursAt(s, ext, |name|) by { assert s[|name|..|name| + |ext|] == ext; }
    forall j: nat | j < |name| ensures !OccursAt(s, ext, j) {
      if OccursAt(s, ext, j) {
        OnlyAtExtension(name, ext, ext, j);
      }
    }
    assert Find(s, ext) == |name|;
    assert s[..|name|] == name;
    assert s[|name| + |ext|..] == [];
    assert Find("", ext) == -1;
    assert Split("", ext) == [""];
    assert Split(s, ext) == [name, ""];
    assert Join("", [name, ""]) == name + "" + Join("", [""]);
  }

  /** Another extension of the same length does not occur in the name with its own extension. */
  lemma OtherExtensionAbsent(name: string, ext: string, other: string)
    requires NoDot(name) && |other| == |ext| > 0 && other[0] == '.' && other != ext
    ensures !Contains(name + ext, other)
  {
    var s := name + ext;
    if Contains(s, other) {
      var j: nat :| j <= |s| && OccursAt(s, other, j);
      OnlyAtExtension(name, ext, other, j);
    }
  }

  /** No extension occurs in a name without `.`. */
  lemma NoExtension(name: string, other: string)
    requires NoDot(name) && |other| > 0 && other[0] == '.'
    ensures !Contains(name, other)
  {
  }

  /** `lineitem.tbl` loads into `lineitem`: a table name without `.` comes back from each kind of file. */
  lemma TableOfFileMeaning(name: string)
    requires NoDot(name)
    ensures TableOfFile(name + ".tbl") == name
    ensures TableOfFile(name + ".dat") == name
    ensures TableOfFile(name + ".csv") == name
  {
    NoExtension(name, ".dat");
    NoExtension(name, ".csv");
    NoExtension(name, ".tbl");
    RemoveExtension(name, ".tbl");
    OtherExtensionAbsent(name, ".dat", ".tbl");
    RemoveExtension(name, ".dat");
    OtherExtensionAbsent(name, ".csv", ".tbl");
    OtherExtensionAbsent(name, ".csv", ".dat");
    RemoveExtension(name, ".csv");
  }

  // ------------------------------------------------------------ `_read_column_names`

  /** `column.lstrip().split(' ', 1)[0]`: the first word of a column definition. */
  function DefinitionName(definition: string): string {
    Until(LStrip(definition), ' ')
  }

  lemma DefinitionNameIsSplit(definition: string)
    ensures DefinitionName(definition) == SplitOnce(LStrip(definition), " ")[0]
  {
    UntilIsSplitHead(LStrip(definition), ' ');
    SplitOnceHead(LStrip(definition), " ");
    assert " " == [' '];
  }

  /** The first words of the column definitions. */
  function Names(definitions: seq<string>): (r: seq<string>)
    ensures |r| == |definitions|
  {
    if |definitions| == 0 then [] else Names(definitions[..|definitions| - 1]) + [DefinitionName(definitions[|definitions| - 1])]
  }

  lemma {:induction false} NamesAt(definitions: seq<string>, k: nat)
    requires k < |definitions|
    ensures Names(definitions)[k] == DefinitionName(definitions[k])
  {
    if k < |definitions| - 1 {
      var init := definitions[..|definitions| - 1];
      NamesAt(init, k);
      assert init[k] == definitions[k];
    }
  }

  /** The columns of `table` with the given names, skipping the `primary` key clause. */
  function ColumnsOf(names: seq<string>, table: Table): (r: seq<Column>)
    ensures |r| <= |names|
    ensures forall c :: c in r ==> c.table == table.name
  {
    if |names| == 0 then []
    else
      var name := names[|names| - 1];
      ColumnsOf(names[..|names| - 1], table) +
      (if name == "primary" then [] else [NewColumn(0, name, table)])
  }

  /** A name gives a column exactly when it is not `primary`, and the column carries it lower-cased. */
  lemma {:induction false} ColumnsOfNames(names: seq<string>, table: Table)
    ensures forall c :: c in ColumnsOf(names, table) <==>
      exists n :: n in names && n != "primary" && c == Column(Lower(n), table.name)
  {
    if |names| > 0 {
      var init := names[..|names| - 1];
      ColumnsOfNames(init, table);
      assert names == init + [names[|names| - 1]];
    }
  }

  /** One more name read. */
  lemma ColumnsOfSnoc(names: seq<string>, j: nat, table: Table)
    requires j < |names|
    ensures names[j] == "primary" ==> ColumnsOf(names[..j + 1], table) == ColumnsOf(names[..j], table)
    ensures names[j] != "primary" ==>
      ColumnsOf(names[..j + 1], table) == ColumnsOf(names[..j], table) + [Column(Lower(names[j]), table.name)]
  {
    assert names[..j + 1][..j] == names[..j];
    assert ColumnsOf(names[..j], table) + [] == ColumnsOf(names[..j], table);
  }

  /** The text after the first `(`, if there is one. */
  function Body(statement: string): Option<string> {
    var parts := SplitOnce(statement, "(");
    if |parts| == 2 then Some(parts[1]) else None
  }

  /** The table a `create table` statement names, with the columns its body defines. */
  function StatementTable(statement: string): (t: Table)
    ensures IsLower(t.name)
    ensures forall c :: c in t.columns ==> c.table == t.name
  {
    Finish(NewTable(Strip(SplitOnce(statement, "(")[0])), Body(statement))
  }

  /** A table with the columns its body defines, if it has one. */
  function Finish(table: Table, body: Option<string>): (t: Table)
    ensures t.name == table.name
  {
    if body.None? then table else table.(columns := table.columns + ColumnsOf(Names(Split(body.value, ",\n")), table))
  }

  /** What reading one statement gives: its table, and whether it has a `(`. */
  datatype Parsed = Parsed(table: Table, hasBody: bool)

  function ParseStatement(statement: string): Parsed {
    Parsed(StatementTable(statement), Body(statement).Some?)
  }

  function ParseAll(statements: seq<string>): (r: seq<Parsed>)
    ensures |r| == |statements|
  {
    seq(|statements|, k requires 0 <= k < |statements| => ParseStatement(statements[k]))
  }

  /** `parsed` holds the parse of each statement, position by position. */
  predicate ParsedAs(parsed: seq<Parsed>, statements: seq<string>) {
    |parsed| == |statements| &&
    forall k {:trigger ParseStatement(statements[k])} :: 0 <= k < |statements| ==> parsed[k] == ParseStatement(statements[k])
  }

  lemma ParseAllParsedAs(statements: seq<string>)
    ensures ParsedAs(ParseAll(statements), statements)
  {
    forall k | 0 <= k < |statements| ensures ParseAll(statements)[k] == ParseStatement(statements[k]) {
    }
  }

  /**
   * The loop of `_read_column_names` over read statements: each table is
   * appended, and a statement without `(` raises IndexError right after.
   */
  function Read(parsed: seq<Parsed>): (seq<Table>, Option<string>) {
    if |parsed| == 0 then ([], None)
    else
      var (tables, error) := Read(parsed[..|parsed| - 1]);
      var p := parsed[|parsed| - 1];
      if error.Some? then (tables, error)
      else (tables + [p.table], if p.hasBody then None else Some("IndexError"))
  }

  /** The tables of the statements and the error reading them raised, if any. */
  function Tables(statements: seq<string>): (seq<Table>, Option<string>) {
    Read(ParseAll(statements))
  }

  /** The columns of the tables, table by table. */
  function AllColumns(tables: seq<Table>): seq<Column> {
    if |tables| == 0 then [] else AllColumns(tables[..|tables| - 1]) + tables[|tables| - 1].columns
  }

  /** The statements of a file: the text after each `create table `, lower-cased. */
  function Statements(data: string): seq<string> {
    Split(Lower(data), "create table ")[1..]
  }

  lemma {:induction false} ReadInOrder(parsed: seq<Parsed>)
    ensures |Read(parsed).0| <= |parsed|
    ensures Read(parsed).1.None? ==> |Read(parsed).0| == |parsed|
    ensures forall k :: 0 <= k < |Read(parsed).0| ==> Read(parsed).0[k] == parsed[k].table
  {
    if |parsed| > 0 {
      ReadInOrder(parsed[..|parsed| - 1]);
    }
  }

  lemma {:induction false} ReadWithoutError(parsed: seq<Parsed>, k: nat)
    requires k < |parsed| && Read(parsed).1.None?
    ensures parsed[k].hasBody
  {
    if k < |parsed| - 1 {
      ReadWithoutError(parsed[..|parsed| - 1], k);
    }
  }

  lemma {:induction false} ReadError(parsed: seq<Parsed>)
    requires Read(parsed).1.Some?
    ensures var tables := Read(parsed).0;
      Read(parsed).1 == Some("IndexError") && 0 < |tables| <= |parsed| && !parsed[|tables| - 1].hasBody &&
      forall k :: 0 <= k < |tables| - 1 ==> parsed[k].hasBody
  {
    var init := parsed[..|parsed| - 1];
    ReadInOrder(init);
    if Read(init).1.Some? {
      ReadError(init);
    } else {
      forall k | 0 <= k < |init| ensures parsed[k].hasBody {
        ReadWithoutError(init, k);
      }
    }
  }

  /** The tables read are those of the first statements, in order; all of them when no error was raised. */
  lemma TablesInOrder(statements: seq<string>)
    ensures |Tables(statements).0| <= |statements|
    ensures Tables(statements).1.None? ==> |Tables(statements).0| == |statements|
    ensures forall k :: 0 <= k < |Tables(statements).0| ==> Tables(statements).0[k] == StatementTable(statements[k])
  {
    ReadInOrder(ParseAll(statements));
    forall k | 0 <= k < |Tables(statements).0| ensures Tables(statements).0[k] == StatementTable(statements[k]) {
    }
  }

  /**
   * An error is the IndexError of the first statement without `(`: every
   * statement before it has one, and its table is the last one kept.
   */
  lemma {:induction false} TablesError(statements: seq<string>)
    requires Tables(statements).1.Some?
    ensures Tables(statements).1 == Some("IndexError")
    ensures 0 < |Tables(statements).0| <= |statements|
    ensures Body(statements[|Tables(statements).0| - 1]).None?
    ensures forall k :: 0 <= k < |Tables(statements).0| - 1 ==> Body(statements[k]).Some?
  {
    var parsed := ParseAll(statements);
    assert Tables(statements) == Read(parsed);
    ParseAllParsedAs(statements);
    ReadErrorParsed(parsed, statements);
  }

  /** `TablesError` over any reading of the statements; the last table kept has no columns. */
  lemma ReadErrorParsed(parsed: seq<Parsed>, statements: seq<string>)
    requires ParsedAs(parsed, statements) && Read(parsed).1.Some?
    ensures var tables := Read(parsed).0;
      Read(parsed).1 == Some("IndexError") && 0 < |tables| <= |statements| &&
      Body(statements[|tables| - 1]).None? && tables[|tables| - 1].columns == [] &&
      forall k :: 0 <= k < |tables| - 1 ==> Body(statements[k]).Some?
  {
    ReadError(parsed);
    ReadInOrder(parsed);
    var n := |Read(parsed).0|;
    ParsedWithoutBody(parsed, statements, n - 1);
    forall k | 0 <= k < n - 1 ensures Body(statements[k]).Some? {
      ParsedBody(parsed, statements, k);
    }
  }

  /** A statement without `(` gives a table without columns. */
  lemma StatementWithoutBody(statement: string)
    requires Body(statement).None?
    ensures StatementTable(statement).columns == []
  {
  }

  /** Whether a statement was read with a body is whether it has a `(`. */
  lemma ParsedBody(parsed: seq<Parsed>, statements: seq<string>, k: nat)
    requires ParsedAs(parsed, statements) && k < |statements|
    ensures parsed[k].hasBody <==> Body(statements[k]).Some?
  {
    assert parsed[k] == ParseStatement(statements[k]);
  }

  /** A statement without `(` reads to a table without columns. */
  lemma ParsedWithoutBody(parsed: seq<Parsed>, statements: seq<string>, k: nat)
    requires ParsedAs(parsed, statements) && k < |statements| && !parsed[k].hasBody
    ensures Body(statements[k]).None? && parsed[k].table.columns == []
  {
    assert parsed[k] == ParseStatement(statements[k]);
  }

  /** One more statement read after a run without error. */
  lemma ReadSnoc(parsed: seq<Parsed>, i: nat)
    requires i < |parsed| && Read(parsed[..i]).1.None?
    ensures Read(parsed[..i + 1]).0 == Read(parsed[..i]).0 + [parsed[i].table]
    ensures Read(parsed[..i + 1]).1 == if parsed[i].hasBody then None else Some("IndexError")
  {
    assert parsed[..i + 1][..i] == parsed[..i];
  }

  /** Once a prefix of the statements has failed, the whole reading has. */
  lemma {:induction false} ReadStops(parsed: seq<Parsed>, n: nat)
    requires n <= |parsed| && Read(parsed[..n]).1.Some?
    ensures Read(parsed) == Read(parsed[..n])
    decreases |parsed| - n
  {
    if n < |parsed| {
      assert parsed[..n + 1][..n] == parsed[..n];
      ReadStops(parsed, n + 1);
    } else {
      assert parsed[..n] == parsed;
    }
  }

  // ------------------------------------------------------------ the generator

  class TableGenerator {
    var benchmarkName: string
    var scaleFactor: real
    var scaleText: string
    var tables: seq<Table>
    var columns: seq<Column>
    var tableFiles: seq<string>
    var setup: Setup

    /** `__init__` up to the call of `_prepare`, which is `Initialize` here. */
    constructor(benchmarkName: string, scaleFactor: real, scaleText: string)
      ensures this.benchmarkName == benchmarkName && this.scaleFactor == scaleFactor && this.scaleText == scaleText
      ensures tables == [] && columns == [] && tableFiles == []
    {
      this.benchmarkName := benchmarkName;
      this.scaleFactor := scaleFactor;
      this.scaleText := scaleText;
      tables := [];
      columns := [];
      tableFiles := [];
      setup := Setup("", "", [], []);
    }

    /**
     * The rest of `__init__`: `_prepare`, the table files if the database
     * does not exist yet, and `_read_column_names` on the statements file.
     */
    method Initialize(databaseNames: seq<string>, files: seq<string>, statementsText: string, darwin: bool)
      returns (error: Option<string>)
      requires tables == [] && columns == []
      modifies this
      ensures benchmarkName == old(benchmarkName) && scaleFactor == old(scaleFactor) && scaleText == old(scaleText)
      ensures var p := Prepare(benchmarkName, scaleFactor, scaleText, darwin);
        p.Err? ==> error == Some(p.error) && tables == [] && columns == [] && tableFiles == old(tableFiles)
      ensures var p := Prepare(benchmarkName, scaleFactor, scaleText, darwin);
        p.Ok? ==>
          setup == p.value &&
          tableFiles == (if DatabaseName(benchmarkName, scaleText) in databaseNames then old(tableFiles) else TableFiles(files)) &&
          tables == Tables(Statements(statementsText)).0 && error == Tables(Statements(statementsText)).1 &&
          columns == AllColumns(tables)
    {
      var p := Prepare(benchmarkName, scaleFactor, scaleText, darwin);
      error := Prepared(p, DatabaseName(benchmarkName, scaleText) in databaseNames, files, statementsText);
    }

    /** `__init__` once `_prepare` has given `p`; `present` says whether the database is there already. */
    method Prepared(p: Result<Setup>, present: bool, files: seq<string>, statementsText: string)
      returns (error: Option<string>)
      requires tables == [] && columns == []
      modifies this`setup, this`tableFiles, this`tables, this`columns
      ensures p.Err? ==> error == Some(p.error) && tables == [] && columns == [] && tableFiles == old(tableFiles)
      ensures p.Ok? ==>
          setup == p.value &&
          tableFiles == (if present then old(tableFiles) else TableFiles(files)) &&
          tables == Tables(Statements(statementsText)).0 && error == Tables(Statements(statementsText)).1 &&
          columns == AllColumns(tables)
    {
      if p.Err? {
        return Some(p.error);
      }
      setup := p.value;
      if !present {
        tableFiles := TableFiles(files);
      }
      error := ReadColumnNames(statementsText);
      assert [] + tables == tables;
    }

    /** `_read_column_names`: tables and columns are appended with a running id. */
    method ReadColumnNames(statementsText: string) returns (error: Option<string>)
      modifies this`tables, this`columns
      ensures tables == old(tables) + Tables(Statements(statementsText)).0
      ensures columns == old(columns) + AllColumns(Tables(Statements(statementsText)).0)
      ensures error == Tables(Statements(statementsText)).1
    {
      var createTables := Statements(statementsText);
      ParseAllParsedAs(createTables);
      error := ReadStatements(createTables, ParseAll(createTables));
    }

    /** The loop of `_read_column_names` over the `create table` statements. */
    method ReadStatements(createTables: seq<string>, ghost parsed: seq<Parsed>) returns (error: Option<string>)
      requires ParsedAs(parsed, createTables)
      modifies this`tables, this`columns
      ensures tables == old(tables) + Read(parsed).0
      ensures columns == old(columns) + AllColumns(Read(parsed).0)
      ensures error == Read(parsed).1
    {
      var id := 0;
      var i := 0;
      while i < |createTables|
        invariant i <= |createTables| && Read(parsed[..i]).1.None?
        invariant tables == old(tables) + Read(parsed[..i]).0
        invariant columns == old(columns) + AllColumns(Read(parsed[..i]).0)
        invariant id == |AllColumns(Read(parsed[..i]).0)|
      {
        var ok;
        id, ok := ReadStatementAt(createTables, i, id, parsed, old(tables), old(columns));
        if !ok {
          ReadSnoc(parsed, i);
          ReadStops(parsed, i + 1);
          return Some("IndexError");
        }
        i := i + 1;
      }
      assert parsed[..i] == parsed;
      return None;
    }

    /** The `i`th `create table` statement: its table is appended, then its columns unless it has no `(`. */
    method ReadStatementAt(createTables: seq<string>, i: nat, id: int, ghost parsed: seq<Parsed>,
                           ghost tables0: seq<Table>, ghost columns0: seq<Column>)
      returns (next: int, ok: bool)
      requires i < |createTables| && ParsedAs(parsed, createTables) && Read(parsed[..i]).1.None?
      requires tables == tables0 + Read(parsed[..i]).0 && columns == columns0 + AllColumns(Read(parsed[..i]).0)
      requires id == |AllColumns(Read(parsed[..i]).0)|
      modifies this`tables, this`columns
      ensures tables == tables0 + Read(parsed[..i + 1]).0
      ensures columns == columns0 + AllColumns(Read(parsed[..i + 1]).0)
      ensures next == |AllColumns(Read(parsed[..i + 1]).0)|
      ensures ok == Read(parsed[..i + 1]).1.None?
    {
      ReadSnoc(parsed, i);
      next, ok := AppendStatement(createTables, i, id, parsed);
      ghost var added := Read(parsed[..i + 1]).0;
      assert AllColumns(added) == AllColumns(added[..|added| - 1]) + added[|added| - 1].columns;
    }

    /** The table of the `i`th statement is appended, with its columns when it has a body. */
    method AppendStatement(createTables: seq<string>, i: nat, id: int, ghost parsed: seq<Parsed>)
      returns (next: int, ok: bool)
      requires i < |createTables| && ParsedAs(parsed, createTables)
      modifies this`tables, this`columns
      ensures tables == old(tables) + [parsed[i].table]
      ensures columns == old(columns) + parsed[i].table.columns
      ensures next == id + |parsed[i].table.columns|
      ensures ok == parsed[i].hasBody
    {
      assert parsed[i] == ParseStatement(createTables[i]);
      var table, body := StartTable(createTables[i]);
      next, ok := AppendTable(table, body, id);
    }

    /** The table is appended; without a body that raises IndexError, otherwise its columns follow. */
    method AppendTable(table: Table, body: Option<string>, id: int) returns (next: int, ok: bool)
      requires table.columns == []
      modifies this`tables, this`columns
      ensures tables == old(tables) + [Finish(table, body)]
      ensures columns == old(columns) + Finish(table, body).columns
      ensures next == id + |Finish(table, body).columns|
      ensures ok == body.Some?
    {
      ghost var before := tables;
      tables := tables + [table];
      assert tables[..|tables| - 1] == before;
      if body.None? {
        return id, false;
      }
      var definitions := Split(body.value, ",\n");
      ghost var added := ColumnsOf(Names(definitions), table);
      assert table.columns + added == added;
      assert Finish(table, body) == table.(columns := added);
      next := ReadDefinitions(definitions, table, id, before, table);
      ok := true;
    }

    /** The inner loop of `_read_column_names`: the columns of the table appended last. */
    method ReadDefinitions(definitions: seq<string>, table: Table, id: int, ghost init: seq<Table>, ghost last: Table)
      returns (next: int)
      requires tables == init + [last]
      modifies this`tables, this`columns
      ensures tables == init + [last.(columns := last.columns + ColumnsOf(Names(definitions), table))]
      ensures columns == old(columns) + ColumnsOf(Names(definitions), table)
      ensures next == id + |ColumnsOf(Names(definitions), table)|
    {
      ghost var names := Names(definitions);
      ghost var added: seq<Column> := [];
      next := id;
      assert last.(columns := last.columns + added) == last;
      for j := 0 to |definitions|
        invariant added == ColumnsOf(names[..j], table)
        invariant tables == init + [last.(columns := last.columns + added)]
        invariant columns == old(columns) + added
        invariant next == id + |added|
      {
        var name := NameAt(definitions, j, names);
        ColumnsOfSnoc(names, j, table);
        if name == "primary" {
          continue;
        }
        var column := NewColumn(next, name, table);
        AddColumn(column, init, last.(columns := last.columns + added));
        ExtendLast(last, added, column);
        added := added + [column];
        next := next + 1;
      }
      assert names[..|definitions|] == names;
    }

    /** `table.columns.append(column)` on the table appended last, and `self.columns.append(column)`. */
    method AddColumn(column: Column, ghost init: seq<Table>, ghost last: Table)
      requires tables == init + [last]
      modifies this`tables, this`columns
      ensures tables == init + [last.(columns := last.columns + [column])]
      ensures columns == old(columns) + [column]
    {
      var table := tables[|tables| - 1];
      assert tables[..|tables| - 1] == init;
      tables := tables[..|tables| - 1] + [table.(columns := table.columns + [column])];
      columns := columns + [column];
    }
  }

  /** Appending one column after `added` is appending `added + [column]`. */
  lemma ExtendLast(last: Table, added: seq<Column>, column: Column)
    ensures var t := last.(columns := last.columns + added);
      t.(columns := t.columns + [column]) == last.(columns := last.columns + (added + [column]))
  {
    assert last.columns + added + [column] == last.columns + (added + [column]);
  }

  /** `column.lstrip().split(' ', 1)[0]` for the `j`th definition. */
  method NameAt(definitions: seq<string>, j: nat, ghost names: seq<string>) returns (name: string)
    requires j < |definitions| && names == Names(definitions)
    ensures name == names[j]
  {
    NamesAt(definitions, j);
    name := DefinitionName(definitions[j]);
  }

  /** The table of a statement before its columns, and the statement's body. */
  method StartTable(statement: string) returns (table: Table, body: Option<string>)
    ensures body == Body(statement)
    ensures table.columns == []
    ensures StatementTable(statement) == Finish(table, body)
  {
    var splitted := SplitOnce(statement, "(");
    table := NewTable(Strip(splitted[0]));
    body := if |splitted| == 2 then Some(splitted[1]) else None;
  }
}
