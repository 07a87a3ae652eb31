/**
 * selection/result_parser.py: reading a benchmark result CSV back. Each
 * row after the header gives the memory budget, the runtimes, the query
 * costs (columns 16 up to the last one) and the selected indexes, whose
 * text `str(indexes)` is parsed back into the `table.column` names of
 * each index.
 *
 * Opening the file, the CSV reader and `json.loads`/`float` are not part
 * of this model: rows are given as their cells, and the decoding of a
 * cell is a parameter.
 */
module ResultParser {
  import opened Common
  import opened Schema
  import opened Indexes
  import opened SelectionAlgorithms

  /** One index of the list: `I(` and `)` dropped, then each `,`-separated attribute without `C `. */
  function IndexAttributes(indexString: string): seq<string> {
    var attributes := Split(DropEnds(indexString, 2, 1), ",");
    seq(|attributes|, k requires 0 <= k < |attributes| => DropFront(attributes[k], 2))
  }

  /** `parse_index_string_list`: `[]` is no index; otherwise the outer brackets go and `, ` separates the indexes. */
  function IndexStringList(text: string): seq<seq<string>> {
    if text == "[]" then []
    else
      var parts := Split(StripChars(text, {'[', ']'}), ", ");
      seq(|parts|, k requires 0 <= k < |parts| => IndexAttributes(parts[k]))
  }

  /** `parse_index_string_list` with its two loops. */
  method ParseIndexStringList(text: string) returns (indexes: seq<seq<string>>)
    ensures indexes == IndexStringList(text)
  {
    if text == "[]" {
      return [];
    }
    var stripped := StripChars(text, {'[', ']'});
    var parts := Split(stripped, ", ");
    indexes := ParseIndexes(parts);
  }

  /** The outer loop: one parsed index per part. */
  method ParseIndexes(parts: seq<string>) returns (indexes: seq<seq<string>>)
    ensures |indexes| == |parts| && forall k :: 0 <= k < |parts| ==> indexes[k] == IndexAttributes(parts[k])
  {
    indexes := [];
    var i := 0;
    while i < |parts|
      invariant i <= |parts| && |indexes| == i
      invariant forall k :: 0 <= k < i ==> indexes[k] == IndexAttributes(parts[k])
    {
      var index := ParseIndex(parts[i]);
      indexes := indexes + [index];
      i := i + 1;
    }
  }

  /** One index: `index_string[2:-1]`, split on `,`. */
  method ParseIndex(indexString: string) returns (index: seq<string>)
    ensures index == IndexAttributes(indexString)
  {
    var attributes := Split(DropEnds(indexString, 2, 1), ",");
    index := DropPrefixes(attributes);
  }

  /** The inner loop: each attribute without its first two characters. */
  method DropPrefixes(attributes: seq<string>) returns (index: seq<string>)
    ensures |index| == |attributes| && forall m :: 0 <= m < |attributes| ==> index[m] == DropFront(attributes[m], 2)
  {
    index := [];
    var j := 0;
    while j < |attributes|
      invariant j <= |attributes| && |index| == j
      invariant forall m :: 0 <= m < j ==> index[m] == DropFront(attributes[m], 2)
    {
      index := index + [DropFront(attributes[j], 2)];
      j := j + 1;
    }
  }

  // ------------------------------------------------------------ the text parsed

  /** `repr(index)`: `I(`, the column texts separated by `,`, then `)`. */
  function IndexRepr(ix: Index): string {
    "I(" + Join(",", ColumnReprs(ix.columns)) + ")"
  }

  function ColumnReprs(cols: seq<Column>): (r: seq<string>)
    ensures |r| == |cols|
  {
    seq(|cols|, k requires 0 <= k < |cols| => ColumnRepr(cols[k]))
  }

  /** `str(indexes)` for a list of indexes. */
  function IndexListRepr(ixs: seq<Index>): string {
    "[" + Join(", ", IndexReprs(ixs)) + "]"
  }

  function IndexReprs(ixs: seq<Index>): (r: seq<string>)
    ensures |r| == |ixs|
  {
    seq(|ixs|, k requires 0 <= k < |ixs| => IndexRepr(ixs[k]))
  }

  /** What the parser gives for a column: `<table>.<name>`. */
  function QualifiedName(c: Column): string {
    c.table + "." + c.name
  }

  function QualifiedNames(ix: Index): (r: seq<string>)
    ensures |r| == |ix.columns|
  {
    seq(|ix.columns|, k requires 0 <= k < |ix.columns| => QualifiedName(ix.columns[k]))
  }

  predicate CommaFree(s: string) {
    forall k :: 0 <= k < |s| ==> s[k] != ','
  }

  /** The names the parser can read back: no `,` in a table or column name and no index without columns. */
  predicate Readable(ixs: seq<Index>) {
    forall ix :: ix in ixs ==>
      |ix.columns| > 0 && (forall c :: c in ix.columns ==> CommaFree(c.table) && CommaFree(c.name))
  }

  /** Every `,` is followed by something other than a space (so there is no `, ` and no trailing `,`). */
  predicate NoCommaSpace(s: string) {
    forall j :: 0 <= j < |s| && s[j] == ',' ==> j + 1 < |s| && s[j + 1] != ' '
  }

  /** Every `,` is followed by a `C`. */
  predicate CommaBeforeC(s: string) {
    forall j :: 0 <= j < |s| && s[j] == ',' ==> j + 1 < |s| && s[j + 1] == 'C'
  }

  // ------------------------------------------------------------ properties

  /** `[]` is the empty list. */
  lemma EmptyList()
    ensures IndexStringList("[]") == []
    ensures IndexStringList(IndexListRepr([])) == []
  {
    assert IndexListRepr([]) == "[]";
  }

  /**
   * Otherwise there is one index per `, `-separated part of the text
   * without its brackets, and attribute `m` of index `k` is the `m`th
   * `,`-separated part of that index's text between `I(` and `)`, without
   * its first two characters.
   */
  lemma IndexesOfParts(text: string)
    requires text != "[]"
    ensures var parts := Split(StripChars(text, {'[', ']'}), ", ");
      |IndexStringList(text)| == |parts| &&
      forall k :: 0 <= k < |parts| ==>
        var attributes := Split(DropEnds(parts[k], 2, 1), ",");
        |IndexStringList(text)[k]| == |attributes| &&
        forall m :: 0 <= m < |attributes| ==> IndexStringList(text)[k][m] == DropFront(attributes[m], 2)
  {
  }

  /** An empty cell is not the empty list: it reads as one index with one empty attribute. */
  lemma EmptyCell()
    ensures IndexStringList("") == [[""]]
  {
    assert StripChars("", {'[', ']'}) == "";
    assert Find("", ", ") == -1;
    assert Split("", ", ") == [""];
    assert DropEnds("", 2, 1) == "";
    assert Find("", ",") == -1;
    assert Split("", ",") == [""];
    assert IndexAttributes("") == [""];
  }

  /** A column's text has no `,` when its names have none. */
  lemma ColumnReprCommaFree(c: Column)
    requires CommaFree(c.table) && CommaFree(c.name)
    ensures CommaFree(ColumnRepr(c)) && |ColumnRepr(c)| >= 2 && ColumnRepr(c)[0] == 'C'
  {
    var s := ColumnRepr(c);
    forall k | 0 <= k < |s| ensures s[k] != ',' {
      if k >= 2 + |c.table| + 1 {
        assert s[k] == c.name[k - 2 - |c.table| - 1];
      } else if k >= 2 && k < 2 + |c.table| {
        assert s[k] == c.table[k - 2];
      }
    }
  }

  lemma CommaFreeHasNoComma(s: string)
    requires CommaFree(s)
    ensures !Contains(s, ",")
  {
    forall i: nat | i <= |s| ensures !OccursAt(s, ",", i) {
      if i + 1 <= |s| {
        assert s[i..i + 1] == [s[i]];
      }
    }
  }

  /** Joined with `,`, texts without a comma that start with `C` have a `C` after every `,`. */
  lemma {:induction false} JoinCommaBeforeC(parts: seq<string>)
    requires |parts| >= 1
    requires forall k :: 0 <= k < |parts| ==> CommaFree(parts[k]) && |parts[k]| > 0 && parts[k][0] == 'C'
    ensures CommaBeforeC(Join(",", parts))
  {
    if |parts| > 1 {
      var rest := parts[1..];
      JoinCommaBeforeC(rest);
      JoinStartsWith(",", rest);
      var p, tail := parts[0], Join(",", rest);
      var s := p + "," + tail;
      assert Join(",", parts) == s;
      assert rest[0] == parts[1];
      forall j | 0 <= j < |s| && s[j] == ',' ensures j + 1 < |s| && s[j + 1] == 'C' {
        if j > |p| {
          var t := j - |p| - 1;
          assert CommaBeforeC(tail);
          assert tail[t] == s[j];
          assert t + 1 < |tail| && tail[t + 1] == 'C';
          assert s[j + 1] == tail[t + 1];
        } else if j == |p| {
          assert tail[..|rest[0]|] == rest[0];
          assert s[j + 1] == tail[0];
        }
      }
    }
  }

  /** The text of a readable index has no `, ` and does not end with `,`. */
  lemma IndexReprNoCommaSpace(ix: Index)
    requires |ix.columns| > 0 && forall c :: c in ix.columns ==> CommaFree(c.table) && CommaFree(c.name)
    ensures NoCommaSpace(IndexRepr(ix)) && |IndexRepr(ix)| >= 3
    ensures IndexRepr(ix)[0] == 'I' && IndexRepr(ix)[|IndexRepr(ix)| - 1] == ')'
  {
    var reprs := ColumnReprs(ix.columns);
    forall k | 0 <= k < |reprs| ensures CommaFree(reprs[k]) && |reprs[k]| > 0 && reprs[k][0] == 'C' {
      assert ix.columns[k] in ix.columns;
      ColumnReprCommaFree(ix.columns[k]);
    }
    JoinCommaBeforeC(reprs);
    var inner := Join(",", reprs);
    var s := IndexRepr(ix);
    assert s == "I(" + inner + ")";
    forall j | 0 <= j < |s| && s[j] == ',' ensures j + 1 < |s| && s[j + 1] != ' ' {
      assert s[0] == 'I' && s[1] == '(' && s[|s| - 1] == ')';
      var t := j - 2;
      assert CommaBeforeC(inner);
      assert inner[t] == s[j];
      assert t + 1 < |inner| && inner[t + 1] == 'C';
      assert s[j + 1] == inner[t + 1];
    }
  }

  /** With no `, ` in it and no `,` at its end, `, ` is first found right after a text. */
  lemma NoCommaSpaceFind(p: string)
    requires NoCommaSpace(p)
    ensures Find(p + ", ", ", ") == |p| && !Contains(p, ", ")
  {
    var s := p + ", ";
    assert s[|p|..|p| + 2] == ", ";
    assert OccursAt(s, ", ", |p|);
    forall j: nat | j < |p| ensures !OccursAt(s, ", ", j) {
      assert s[j] == p[j];
      if j + 1 < |p| {
        assert s[j + 1] == p[j + 1];
      }
      if j + 2 <= |s| {
        assert s[j..j + 2] == [s[j], s[j + 1]];
      }
    }
    forall i: nat | i <= |p| ensures !OccursAt(p, ", ", i) {
      if i + 2 <= |p| {
        assert p[i..i + 2] == [p[i], p[i + 1]];
      }
    }
  }

  /** Stripping the outer brackets of `[m]` gives `m` when `m` neither starts nor ends with a bracket. */
  lemma StripBrackets(m: string)
    requires |m| > 0 && m[0] !in {'[', ']'} && m[|m| - 1] !in {'[', ']'}
    ensures StripChars("[" + m + "]", {'[', ']'}) == m
  {
    var chars := {'[', ']'};
    var s := "[" + m + "]";
    var l := LStripChars(s, chars);
    assert s[1] == m[0];
    assert l == s[1..];
    assert s[1..] == m + "]";
    var r := RStripChars(l, chars);
    assert l[|l| - 2] == m[|m| - 1];
    assert r == l[..|l| - 1];
    assert l[..|l| - 1] == m;
  }

  /** One index's text reads back as the qualified names of its columns. */
  lemma ParseIndexRepr(ix: Index)
    requires |ix.columns| > 0 && forall c :: c in ix.columns ==> CommaFree(c.table) && CommaFree(c.name)
    ensures IndexAttributes(IndexRepr(ix)) == QualifiedNames(ix)
  {
    var reprs := ColumnReprs(ix.columns);
    var inner := Join(",", reprs);
    assert DropEnds(IndexRepr(ix), 2, 1) == inner;
    ColumnReprsNoComma(ix);
    SplitJoinUnit(',', reprs);
    ColumnReprsQualified(ix);
    AttributesFromParts(IndexRepr(ix), inner, reprs, QualifiedNames(ix));
  }

  lemma ColumnReprsNoComma(ix: Index)
    requires forall c :: c in ix.columns ==> CommaFree(c.table) && CommaFree(c.name)
    ensures var reprs := ColumnReprs(ix.columns); forall k :: 0 <= k < |reprs| ==> !Contains(reprs[k], ",")
  {
    var reprs := ColumnReprs(ix.columns);
    forall k | 0 <= k < |reprs| ensures !Contains(reprs[k], ",") {
      assert ix.columns[k] in ix.columns;
      ColumnReprCommaFree(ix.columns[k]);
      CommaFreeHasNoComma(reprs[k]);
    }
  }

  lemma ColumnReprsQualified(ix: Index)
    ensures var reprs := ColumnReprs(ix.columns);
      forall k :: 0 <= k < |reprs| ==> DropFront(reprs[k], 2) == QualifiedNames(ix)[k]
  {
    var reprs := ColumnReprs(ix.columns);
    forall k | 0 <= k < |reprs| ensures DropFront(reprs[k], 2) == QualifiedNames(ix)[k] {
      assert reprs[k] == "C " + QualifiedName(ix.columns[k]);
    }
  }

  /** The attributes of a text whose inner part splits into `parts`, each read as `names[k]`. */
  lemma AttributesFromParts(s: string, inner: string, parts: seq<string>, names: seq<string>)
    requires DropEnds(s, 2, 1) == inner && Split(inner, ",") == parts && |names| == |parts|
    requires forall k :: 0 <= k < |parts| ==> DropFront(parts[k], 2) == names[k]
    ensures IndexAttributes(s) == names
  {
  }

  /** Stripping the brackets of the text of some indexes leaves their texts joined by `, `. */
  lemma StripIndexList(ixs: seq<Index>)
    requires Readable(ixs) && |ixs| > 0
    ensures IndexListRepr(ixs) != "[]"
    ensures StripChars(IndexListRepr(ixs), {'[', ']'}) == Join(", ", IndexReprs(ixs))
  {
    var reprs := IndexReprs(ixs);
    var first, last := reprs[0], reprs[|reprs| - 1];
    assert ixs[0] in ixs && ixs[|ixs| - 1] in ixs;
    IndexReprNoCommaSpace(ixs[0]);
    IndexReprNoCommaSpace(ixs[|ixs| - 1]);
    var inner := Join(", ", reprs);
    JoinStartsWith(", ", reprs);
    JoinEndsWith(", ", reprs);
    assert inner[0] == first[0];
    assert inner[|inner| - 1] == last[|last| - 1];
    assert IndexListRepr(ixs)[1] == 'I';
    StripBrackets(inner);
  }

  /** The texts of readable indexes, joined by `, ` and split again, are those texts. */
  lemma SplitIndexReprs(ixs: seq<Index>)
    requires Readable(ixs) && |ixs| > 0
    ensures Split(Join(", ", IndexReprs(ixs)), ", ") == IndexReprs(ixs)
  {
    var reprs := IndexReprs(ixs);
    forall k | 0 <= k < |reprs| ensures Find(reprs[k] + ", ", ", ") == |reprs[k]| && !Contains(reprs[k], ", ") {
      assert ixs[k] in ixs;
      IndexReprNoCommaSpace(ixs[k]);
      NoCommaSpaceFind(reprs[k]);
    }
    SplitJoin(", ", reprs);
  }

  /**
   * The round trip: the text `str(indexes)` of indexes whose names hold
   * no `,` parses back into the `table.column` names of every index, in
   * order.
   */
  lemma ParseIndexListRepr(ixs: seq<Index>)
    requires Readable(ixs)
    ensures IndexStringList(IndexListRepr(ixs)) == seq(|ixs|, k requires 0 <= k < |ixs| => QualifiedNames(ixs[k]))
  {
    if |ixs| == 0 {
      assert IndexListRepr(ixs) == "[]";
    } else {
      StripIndexList(ixs);
      SplitIndexReprs(ixs);
      var reprs := IndexReprs(ixs);
      forall k | 0 <= k < |ixs| ensures IndexAttributes(reprs[k]) == QualifiedNames(ixs[k]) {
        assert ixs[k] in ixs;
        ParseIndexRepr(ixs[k]);
      }
    }
  }

  // ------------------------------------------------------------ rows

  /** What `parse_file` keeps of a row. */
  datatype ResultRow = ResultRow(memory: ParamValue, algorithmRuntime: real, queryCosts: seq<ParamValue>,
                                 indexes: seq<seq<string>>, parameters: Params, runTime: ParamValue)

  /** The decoding of cells: `json.loads` of the parameters, of a number, of a cost's `Cost`, and `float`. */
  datatype Decoders = Decoders(parameters: string -> Params, load: string -> ParamValue,
                               cost: string -> ParamValue, toFloat: string -> real)

  /** `row[16:-1]`: the query cost cells. */
  function CostCells(row: seq<string>): (r: seq<string>)
    ensures |r| == if |row| >= 17 then |row| - 17 else 0
    ensures forall m :: 0 <= m < |r| ==> r[m] == row[16 + m]
  {
    if |row| >= 17 then row[16..|row| - 1] else []
  }

  /**
   * One row after the header: a row too short for the cells read raises
   * IndexError; the memory is `budget_MB` when the parameters have it and
   * column 13 in MB otherwise.
   */
  function ParseRow(row: seq<string>, d: Decoders): Result<ResultRow> {
    if |row| < 4 then Err("IndexError")
    else
      var parameters := d.parameters(row[3]);
      if ("budget_MB" !in parameters && |row| < 14) || |row| < 8 then Err("IndexError")
      else
        var memory := if "budget_MB" in parameters then parameters["budget_MB"] else RealParam(d.toFloat(row[13]) / 1000000.0);
        var cells := CostCells(row);
        Ok(ResultRow(memory, d.toFloat(row[7]), seq(|cells|, m requires 0 <= m < |cells| => d.cost(cells[m])),
                     IndexStringList(row[|row| - 1]), parameters, d.load(row[7])))
  }

  /** `parse_file` over the rows of the file: the header is skipped, an error ends the reading. */
  function Results(rows: seq<seq<string>>, d: Decoders): Result<seq<ResultRow>> {
    ReadRows(rows, ParseRow, d)
  }

  /** Reading rows after the header with a row parser `parse`; the first error ends the reading. */
  function ReadRows<D, R>(rows: seq<seq<string>>, parse: (seq<string>, D) -> Result<R>, d: D): Result<seq<R>> {
    if |rows| <= 1 then Ok([])
    else
      var prev := ReadRows(rows[..|rows| - 1], parse, d);
      if prev.Err? then prev
      else
        var r := parse(rows[|rows| - 1], d);
        if r.Err? then Err(r.error) else Ok(prev.value + [r.value])
  }

  /** Once a row has failed, the whole reading has. */
  lemma ResultsStop(rows: seq<seq<string>>, d: Decoders, n: nat)
    requires n <= |rows| && Results(rows[..n], d).Err?
    ensures Results(rows, d) == Results(rows[..n], d)
  {
    ReadRowsStop(rows, ParseRow, d, n);
  }

  lemma {:induction false} ReadRowsStop<D, R>(rows: seq<seq<string>>, parse: (seq<string>, D) -> Result<R>, d: D, n: nat)
    requires n <= |rows| && ReadRows(rows[..n], parse, d).Err?
    ensures ReadRows(rows, parse, d) == ReadRows(rows[..n], parse, d)
    decreases |rows| - n
  {
    if n < |rows| {
      assert rows[..n + 1][..n] == rows[..n];
      ReadRowsStop(rows, parse, d, n + 1);
    } else {
      assert rows[..n] == rows;
    }
  }

  /** One more row after the header: its error ends the reading, its result is appended. */
  lemma ResultsNext(rows: seq<seq<string>>, d: Decoders, i: nat, parsed: seq<ResultRow>)
    requires 1 <= i < |rows| && Results(rows[..i], d) == Ok(parsed)
    ensures var r := ParseRow(rows[i], d);
      (r.Err? ==> Results(rows, d) == Err(r.error)) &&
      (r.Ok? ==> Results(rows[..i + 1], d) == Ok(parsed + [r.value]))
  {
    ReadRowsNext(rows, ParseRow, d, i, parsed);
  }

  lemma ReadRowsNext<D, R>(rows: seq<seq<string>>, parse: (seq<string>, D) -> Result<R>, d: D, i: nat, parsed: seq<R>)
    requires 1 <= i < |rows| && ReadRows(rows[..i], parse, d) == Ok(parsed)
    ensures var r := parse(rows[i], d);
      (r.Err? ==> ReadRows(rows, parse, d) == Err(r.error)) &&
      (r.Ok? ==> ReadRows(rows[..i + 1], parse, d) == Ok(parsed + [r.value]))
  {
    var next := rows[..i + 1];
    assert next[..|next| - 1] == rows[..i] && next[|next| - 1] == rows[i];
    if parse(rows[i], d).Err? {
      ReadRowsStop(rows, parse, d, i + 1);
    }
  }

  /** `parse_file` with its loop over the numbered rows. */
  method ParseFile(rows: seq<seq<string>>, d: Decoders) returns (results: Result<seq<ResultRow>>)
    ensures results == Results(rows, d)
  {
    var parsed: seq<ResultRow> := [];
    var i := 0;
    while i < |rows|
      invariant i <= |rows| && Results(rows[..i], d) == Ok(parsed)
    {
      if i == 0 {
        assert Results(rows[..1], d) == Ok([]);
        i := i + 1;
        continue;
      }
      var r := NextRow(rows, d, i, parsed);
      if r.Err? {
        return Err(r.error);
      }
      parsed := parsed + [r.value];
      i := i + 1;
    }
    assert rows[..i] == rows;
    return Ok(parsed);
  }

  /** The body of the loop of `parse_file` for row `i`. */
  method NextRow(rows: seq<seq<string>>, d: Decoders, i: nat, ghost parsed: seq<ResultRow>) returns (r: Result<ResultRow>)
    requires 1 <= i < |rows| && Results(rows[..i], d) == Ok(parsed)
    ensures r.Err? ==> Results(rows, d) == Err(r.error)
    ensures r.Ok? ==> Results(rows[..i + 1], d) == Ok(parsed + [r.value])
  {
    r := ParseRow(rows[i], d);
    ResultsNext(rows, d, i, parsed);
  }

  /**
   * Without an error there is one result per row after the header, in
   * order: result `k` is row `k + 1`, whose query costs are the decoded
   * cells 16 up to the last one.
   */
  lemma ResultsPerRow(rows: seq<seq<string>>, d: Decoders)
    requires Results(rows, d).Ok?
    ensures |Results(rows, d).value| == if |rows| == 0 then 0 else |rows| - 1
    ensures forall k :: 0 <= k < |Results(rows, d).value| ==> ParseRow(rows[k + 1], d) == Ok(Results(rows, d).value[k])
  {
    ReadRowsPerRow(rows, ParseRow, d);
  }

  lemma {:induction false} ReadRowsPerRow<D, R>(rows: seq<seq<string>>, parse: (seq<string>, D) -> Result<R>, d: D)
    requires ReadRows(rows, parse, d).Ok?
    ensures |ReadRows(rows, parse, d).value| == if |rows| == 0 then 0 else |rows| - 1
    ensures forall k :: 0 <= k < |ReadRows(rows, parse, d).value| ==>
      parse(rows[k + 1], d) == Ok(ReadRows(rows, parse, d).value[k])
  {
    if |rows| > 1 {
      var init := rows[..|rows| - 1];
      ReadRowsPerRow(init, parse, d);
      var all := ReadRows(rows, parse, d).value;
      forall k | 0 <= k < |all| ensures parse(rows[k + 1], d) == Ok(all[k]) {
        if k < |ReadRows(init, parse, d).value| {
          assert init[k + 1] == rows[k + 1];
        }
      }
    }
  }

  /**
   * A row read without error: its query costs are the decoded cells 16 up
   * to the last one, its indexes the parse of the last cell, and its memory
   * `budget_MB` when present and column 13 divided by 1,000,000 otherwise.
   */
  lemma RowMeaning(row: seq<string>, d: Decoders)
    requires ParseRow(row, d).Ok?
    ensures var r := ParseRow(row, d).value;
      |row| >= 8 && r.parameters == d.parameters(row[3]) &&
      |r.queryCosts| == (if |row| >= 17 then |row| - 17 else 0) &&
      (forall m :: 0 <= m < |r.queryCosts| ==> r.queryCosts[m] == d.cost(row[16 + m])) &&
      r.indexes == IndexStringList(row[|row| - 1]) &&
      ("budget_MB" in r.parameters ==> r.memory == r.parameters["budget_MB"]) &&
      ("budget_MB" !in r.parameters ==> |row| >= 14 && r.memory == RealParam(d.toFloat(row[13]) / 1000000.0))
  {
  }

  /** Rows too short for the cells read raise IndexError. */
  lemma ShortRow(row: seq<string>, d: Decoders)
    ensures |row| < 8 ==> ParseRow(row, d) == Err("IndexError")
    ensures |row| < 14 && |row| >= 4 && "budget_MB" !in d.parameters(row[3]) ==> ParseRow(row, d) == Err("IndexError")
  {
  }
}
