/**
 * selection/algorithms/dexter_algorithm.py: the dexter tool is run once per
 * query; when its output recommends an index (`public.<table> (<columns>)`),
 * the column names are resolved against the query's columns and the column
 * list is kept unless an identical one was kept before.
 *
 * Running the tool is the function `run` from the command line to the
 * tool's output. A name that matches no query column is resolved to None,
 * and the source still builds an `Index` from such a list; an index is
 * therefore represented by its column list, `seq<Option<Column>>`.
 */
module DexterAlgorithm {
  import opened Common
  import opened Schema
  import opened Indexes
  import opened Workloads
  import opened SelectionAlgorithms

  /** `DEFAULT_PARAMETERS`. */
  function DefaultParameters(): (p: Params)
    ensures p.Keys == {"min_saving_percentage"} && p["min_saving_percentage"] == IntParam(5)
  {
    map["min_saving_percentage" := IntParam(5)]
  }

  // ------------------------------------------------------------ the command

  /**
   * `_prepare_query`: the first `;`-separated statement that is not a view
   * creation and names `select` or `SELECT`; the view creations before it
   * are executed by the connector, which is not part of this model.
   */
  function Statement(parts: seq<string>): (r: Option<string>)
  {
    if |parts| == 0 then None
    else if Contains(parts[0], "create view") then Statement(parts[1..])
    else if Contains(parts[0], "select") || Contains(parts[0], "SELECT") then Some(parts[0])
    else Statement(parts[1..])
  }

  function PreparedQuery(q: Query): Option<string> {
    Statement(Split(q.text, ";"))
  }

  predicate Selects(part: string) {
    !Contains(part, "create view") && (Contains(part, "select") || Contains(part, "SELECT"))
  }

  /** The statement is the first part that is a selection and not a view creation. */
  lemma {:induction false} StatementIsFirstSelect(parts: seq<string>)
    ensures Statement(parts).Some? <==> exists k :: 0 <= k < |parts| && Selects(parts[k])
    ensures Statement(parts).Some? ==>
      exists k :: 0 <= k < |parts| && parts[k] == Statement(parts).value && Selects(parts[k]) &&
        forall j :: 0 <= j < k ==> !Selects(parts[j])
  {
    if |parts| > 0 {
      StatementIsFirstSelect(parts[1..]);
      if !Selects(parts[0]) {
        forall k | 0 < k < |parts| ensures parts[k] == parts[1..][k - 1] { }
        if Statement(parts).Some? {
          var k :| 0 <= k < |parts[1..]| && parts[1..][k] == Statement(parts).value && Selects(parts[1..][k]) &&
            forall j :: 0 <= j < k ==> !Selects(parts[1..][j]);
          assert parts[k + 1] == parts[1..][k];
          forall j | 0 <= j < k + 1 ensures !Selects(parts[j]) {
            if j > 0 {
              assert parts[j] == parts[1..][j - 1];
            }
          }
        } else {
          forall k | 0 <= k < |parts| ensures !Selects(parts[k]) {
            if k > 0 {
              assert parts[k] == parts[1..][k - 1];
            }
          }
        }
      }
    }
  }

  /**
   * The command line. A query without a selection statement leaves the
   * prepared query None, and adding it to the command text is a TypeError.
   */
  function Command(databaseName: string, minPercentage: string, statement: Option<string>): (r: Result<string>)
    ensures r.Err? <==> statement.None?
    ensures r.Ok? ==>
      r.value == "dexter " + databaseName + " --min-cost-savings-pct " + minPercentage + " -s \" " + statement.value + "\""
  {
    if statement.None? then Err("TypeError")
    else Ok("dexter " + databaseName + " --min-cost-savings-pct " + minPercentage + " -s \" " + statement.value + "\"")
  }

  // ------------------------------------------------------------ the output

  lemma SplitContains(s: string, sep: string)
    requires |sep| > 0 && Contains(s, sep)
    ensures |Split(s, sep)| >= 2
  {
  }

  /**
   * A recommendation in the tool's output: the table is the text after the
   * first `public.` up to ` (`, the column names the `, `-separated text
   * from there up to `)`. Output without `public.` recommends nothing; one
   * without ` (` after it is an IndexError.
   */
  function Recommendation(output: string): Result<Option<(string, seq<string>)>> {
    if !Contains(output, "public.") then Ok(None)
    else
      SplitContains(output, "public.");
      var index := Split(Split(output, "public.")[1], " (");
      if |index| < 2 then Err("IndexError")
      else Ok(Some((index[0], Split(Split(index[1], ")")[0], ", "))))
  }

  /** The first part of a split is a prefix of the text. */
  lemma SplitFirst(s: string, sep: string)
    requires |sep| > 0
    ensures exists rest :: s == Split(s, sep)[0] + rest
  {
    var parts := Split(s, sep);
    if |parts| == 1 {
      assert s == parts[0] + [];
    } else {
      assert s == parts[0] + (sep + Join(sep, parts[1..]));
    }
  }

  /** With two parts or more, the text is the first part, the separator, the second part and the rest. */
  lemma SplitSecond(s: string, sep: string)
    requires |sep| > 0 && |Split(s, sep)| >= 2
    ensures exists rest :: s == Split(s, sep)[0] + sep + Split(s, sep)[1] + rest
  {
    var parts := Split(s, sep);
    var tail := parts[1..];
    JoinTwo(sep, parts);
    var rest :| Join(sep, parts) == parts[0] + sep + parts[1] + rest;
    assert s == parts[0] + sep + parts[1] + rest;
  }

  lemma JoinTwo(sep: string, parts: seq<string>)
    requires |parts| >= 2
    ensures exists rest :: Join(sep, parts) == parts[0] + sep + parts[1] + rest
  {
    var tail := parts[1..];
    var rest := if |tail| == 1 then [] else sep + Join(sep, tail[1..]);
    assert Join(sep, tail) == tail[0] + rest;
    assert Join(sep, parts) == parts[0] + sep + (tail[0] + rest);
    assert parts[0] + sep + (tail[0] + rest) == parts[0] + sep + parts[1] + rest;
  }

  lemma Regroup(a: string, b: string, c: string, d: string, e: string, r3: string, r2: string, r1: string)
    ensures a + b + (c + d + (e + r3) + r2) + r1 == a + b + c + d + e + (r3 + r2 + r1)
  {
  }

  /** An occurrence in a prefix is an occurrence in the whole. */
  lemma ContainsInPrefix(a: string, b: string, sub: string)
    ensures Contains(a, sub) ==> Contains(a + b, sub)
  {
    if Contains(a, sub) {
      var i: nat :| i <= |a| && OccursAt(a, sub, i);
      assert (a + b)[i..i + |sub|] == a[i..i + |sub|];
      assert OccursAt(a + b, sub, i);
    }
  }

  /**
   * What a recommendation was read from: the output is some text without
   * `public.`, then `public.`, the table name (without ` (` or `public.`),
   * ` (`, the column names joined by `, ` (containing no `)`), and the
   * rest.
   */
  lemma RecommendationSource(output: string, table: string, names: seq<string>)
    requires Recommendation(output) == Ok(Some((table, names)))
    ensures exists prefix, rest ::
      output == prefix + "public." + table + " (" + Join(", ", names) + rest &&
      !Contains(prefix, "public.") && !Contains(table, " (") && !Contains(table, "public.") &&
      !Contains(Join(", ", names), ")")
  {
    var parts := Split(output, "public.");
    var index := Split(parts[1], " (");
    var cut := Split(index[1], ")");
    assert table == index[0] && names == Split(cut[0], ", ");
    assert Join(", ", names) == cut[0];
    SplitChain(output, "public.", " (", ")");
  }

  /** Three successive splits, as the recommendation takes them apart. */
  lemma SplitChain(s: string, a: string, b: string, c: string)
    requires |a| > 0 && |b| > 0 && |c| > 0
    requires |Split(s, a)| >= 2 && |Split(Split(s, a)[1], b)| >= 2
    ensures var index := Split(Split(s, a)[1], b);
      exists prefix, rest ::
        s == prefix + a + index[0] + b + Split(index[1], c)[0] + rest &&
        !Contains(prefix, a) && !Contains(index[0], b) && !Contains(index[0], a) && !Contains(Split(index[1], c)[0], c)
  {
    var parts := Split(s, a);
    var index := Split(parts[1], b);
    var cut := Split(index[1], c);
    SplitSecond(s, a);
    var r1 :| s == parts[0] + a + parts[1] + r1;
    SplitSecond(parts[1], b);
    var r2 :| parts[1] == index[0] + b + index[1] + r2;
    SplitFirst(index[1], c);
    var r3 :| index[1] == cut[0] + r3;
    SplitFirst(parts[1], b);
    var r4 :| parts[1] == index[0] + r4;
    ContainsInPrefix(index[0], r4, a);
    assert !Contains(parts[0], a) && !Contains(parts[1], a);
    assert !Contains(index[0], b) && !Contains(cut[0], c);
    ChainWitness(s, a, b, c, parts[0], parts[1], index[0], index[1], cut[0], r1, r2, r3);
  }

  /** The pieces of the three splits, put back together. */
  lemma ChainWitness(s: string, a: string, b: string, c: string, p0: string, p1: string, i0: string, i1: string,
                     c0: string, r1: string, r2: string, r3: string)
    requires s == p0 + a + p1 + r1 && p1 == i0 + b + i1 + r2 && i1 == c0 + r3
    requires !Contains(p0, a) && !Contains(i0, b) && !Contains(i0, a) && !Contains(c0, c)
    ensures exists prefix, rest ::
      s == prefix + a + i0 + b + c0 + rest &&
      !Contains(prefix, a) && !Contains(i0, b) && !Contains(i0, a) && !Contains(c0, c)
  {
    Regroup(p0, a, i0, b, c0, r3, r2, r1);
    assert s == p0 + a + i0 + b + c0 + (r3 + r2 + r1);
  }

  /** The output recommends nothing exactly when it does not mention `public.`. */
  lemma RecommendationNone(output: string)
    ensures Recommendation(output) == Ok(None) <==> !Contains(output, "public.")
  {
  }

  /**
   * The query column a recommended name stands for: the first with that
   * name on the recommended table, or None.
   */
  function Resolve(name: string, table: string, columns: seq<Column>): (r: Option<Column>)
    ensures r.Some? ==> r.value in columns && r.value.name == name && r.value.table == table
    ensures r.None? <==> forall k :: 0 <= k < |columns| ==> !(columns[k].name == name && columns[k].table == table)
  {
    if |columns| == 0 then None
    else if columns[0].name == name && columns[0].table == table then Some(columns[0])
    else Resolve(name, table, columns[1..])
  }

  function ResolveAll(names: seq<string>, table: string, columns: seq<Column>): (r: seq<Option<Column>>)
    ensures |r| == |names|
    ensures forall k :: 0 <= k < |names| ==> r[k] == Resolve(names[k], table, columns)
  {
    seq(|names|, k requires 0 <= k < |names| => Resolve(names[k], table, columns))
  }

  /** The column list one query contributes, if any. */
  function Contribution(q: Query, databaseName: string, minPercentage: string, run: string -> string):
    Result<Option<seq<Option<Column>>>>
  {
    var command := Command(databaseName, minPercentage, PreparedQuery(q));
    if command.Err? then Err(command.error)
    else
      var rec := Recommendation(run(command.value));
      if rec.Err? then Err(rec.error)
      else if rec.value.None? then Ok(None)
      else Ok(Some(ResolveAll(rec.value.value.1, rec.value.value.0, q.columns)))
  }

  /** `index_columns` after the given queries. */
  function IndexColumns(queries: seq<Query>, databaseName: string, minPercentage: string, run: string -> string):
    Result<seq<seq<Option<Column>>>>
  {
    if |queries| == 0 then Ok([])
    else
      var r := IndexColumns(queries[..|queries| - 1], databaseName, minPercentage, run);
      var c := Contribution(queries[|queries| - 1], databaseName, minPercentage, run);
      if r.Err? then r
      else if c.Err? then Err(c.error)
      else if c.value.None? then r
      else Ok(AddNew(r.value, c.value.value))
  }

  /** The loop body for one query: run the tool and read its recommendation. */
  method QueryColumns(query: Query, databaseName: string, minPercentage: string, run: string -> string)
    returns (r: Result<Option<seq<Option<Column>>>>)
    ensures r == Contribution(query, databaseName, minPercentage, run)
  {
    var command := Command(databaseName, minPercentage, PreparedQuery(query));
    if command.Err? {
      return Err(command.error);
    }
    var outputString := run(command.value);
    var rec := ReadRecommendation(outputString);
    if rec.Err? {
      return Err(rec.error);
    }
    if rec.value.None? {
      return Ok(None);
    }
    var columns := ResolveColumns(rec.value.value.1, rec.value.value.0, query.columns);
    r := Ok(Some(columns));
  }

  /** The part of the loop body that reads the tool's output: the table and the column names. */
  method ReadRecommendation(outputString: string) returns (rec: Result<Option<(string, seq<string>)>>)
    ensures rec == Recommendation(outputString)
  {
    if !Contains(outputString, "public.") {
      return Ok(None);
    }
    SplitContains(outputString, "public.");
    var index := Split(Split(outputString, "public.")[1], " (");
    if |index| < 2 {
      return Err("IndexError");
    }
    rec := Ok(Some((index[0], Split(Split(index[1], ")")[0], ", "))));
  }

  /** The inner loop: every recommended column name, resolved against the query's columns. */
  method ResolveColumns(columnNames: seq<string>, tableName: string, queryColumns: seq<Column>)
    returns (columns: seq<Option<Column>>)
    ensures columns == ResolveAll(columnNames, tableName, queryColumns)
  {
    columns := [];
    for j := 0 to |columnNames|
      invariant columns == ResolveAll(columnNames[..j], tableName, queryColumns)
    {
      columns := columns + [Resolve(columnNames[j], tableName, queryColumns)];
    }
    assert columnNames[..|columnNames|] == columnNames;
  }

  /** `_calculate_best_indexes`. */
  method CalculateBestIndexes(w: Workload, databaseName: string, minPercentage: string, run: string -> string)
    returns (r: Result<seq<seq<Option<Column>>>>)
    ensures r == IndexColumns(w.queries, databaseName, minPercentage, run)
  {
    var indexColumns: seq<seq<Option<Column>>> := [];
    for i := 0 to |w.queries|
      invariant IndexColumns(w.queries[..i], databaseName, minPercentage, run) == Ok(indexColumns)
    {
      assert w.queries[..i + 1][..i] == w.queries[..i];
      var columns := QueryColumns(w.queries[i], databaseName, minPercentage, run);
      if columns.Err? {
        IndexColumnsPrefixFailure(w.queries, databaseName, minPercentage, run, i + 1);
        return Err(columns.error);
      }
      if columns.value.Some? && columns.value.value !in indexColumns {
        indexColumns := indexColumns + [columns.value.value];
      }
    }
    assert w.queries[..|w.queries|] == w.queries;
    r := Ok(indexColumns);
  }

  lemma {:induction false} IndexColumnsPrefixFailure(queries: seq<Query>, databaseName: string, minPercentage: string,
                                                     run: string -> string, n: nat)
    requires n <= |queries| && IndexColumns(queries[..n], databaseName, minPercentage, run).Err?
    ensures IndexColumns(queries, databaseName, minPercentage, run) == IndexColumns(queries[..n], databaseName, minPercentage, run)
    decreases |queries| - n
  {
    if n < |queries| {
      assert queries[..n + 1][..n] == queries[..n];
      IndexColumnsPrefixFailure(queries, databaseName, minPercentage, run, n + 1);
    } else {
      assert queries[..n] == queries;
    }
  }

  // ------------------------------------------------------------ properties

  /** Some query contributes exactly this column list. */
  ghost predicate Contributed(queries: seq<Query>, databaseName: string, minPercentage: string, run: string -> string,
                              cols: seq<Option<Column>>)
  {
    exists k :: 0 <= k < |queries| && Contribution(queries[k], databaseName, minPercentage, run) == Ok(Some(cols))
  }

  lemma ContributedSnoc(queries: seq<Query>, q: Query, databaseName: string, minPercentage: string, run: string -> string,
                        cols: seq<Option<Column>>)
    ensures Contributed(queries + [q], databaseName, minPercentage, run, cols) <==>
      Contributed(queries, databaseName, minPercentage, run, cols) ||
      Contribution(q, databaseName, minPercentage, run) == Ok(Some(cols))
  {
    var all := queries + [q];
    if Contributed(all, databaseName, minPercentage, run, cols) {
      var k :| 0 <= k < |all| && Contribution(all[k], databaseName, minPercentage, run) == Ok(Some(cols));
      if k < |queries| {
        assert all[k] == queries[k];
      }
    }
    if Contributed(queries, databaseName, minPercentage, run, cols) {
      var k :| 0 <= k < |queries| && Contribution(queries[k], databaseName, minPercentage, run) == Ok(Some(cols));
      assert all[k] == queries[k];
    }
    if Contribution(q, databaseName, minPercentage, run) == Ok(Some(cols)) {
      assert all[|queries|] == q;
    }
  }

  /** Every query's command is built, the recommendation read, or the first failure is reported. */
  lemma {:induction false} IndexColumnsSucceed(queries: seq<Query>, databaseName: string, minPercentage: string,
                                               run: string -> string)
    ensures IndexColumns(queries, databaseName, minPercentage, run).Ok? <==>
      forall k :: 0 <= k < |queries| ==> Contribution(queries[k], databaseName, minPercentage, run).Ok?
  {
    if |queries| > 0 {
      var init := queries[..|queries| - 1];
      IndexColumnsSucceed(init, databaseName, minPercentage, run);
      if IndexColumns(init, databaseName, minPercentage, run).Ok? {
        forall k | 0 <= k < |init| ensures Contribution(queries[k], databaseName, minPercentage, run).Ok? {
          assert queries[k] == init[k];
        }
      } else {
        var k :| 0 <= k < |init| && !Contribution(init[k], databaseName, minPercentage, run).Ok?;
        assert queries[k] == init[k];
      }
    }
  }

  /**
   * The result holds each contributed column list once and nothing else,
   * and there are at most as many lists as queries.
   */
  lemma {:induction false} IndexColumnsContents(queries: seq<Query>, databaseName: string, minPercentage: string,
                                                run: string -> string)
    ensures var r := IndexColumns(queries, databaseName, minPercentage, run);
      r.Ok? ==>
        Distinct(r.value) && |r.value| <= |queries| &&
        forall cols :: cols in r.value <==> Contributed(queries, databaseName, minPercentage, run, cols)
  {
    if |queries| > 0 {
      var init := queries[..|queries| - 1];
      var q := queries[|queries| - 1];
      assert queries == init + [q];
      IndexColumnsContents(init, databaseName, minPercentage, run);
      forall cols ensures Contributed(queries, databaseName, minPercentage, run, cols) <==>
        Contributed(init, databaseName, minPercentage, run, cols) || Contribution(q, databaseName, minPercentage, run) == Ok(Some(cols))
      {
        ContributedSnoc(init, q, databaseName, minPercentage, run, cols);
      }
    }
  }

  /**
   * A contributed list is non-empty, so building an `Index` from it never
   * raises; each entry is the query column of that name on the
   * recommended table, or None when the query has none.
   */
  lemma ContributionShape(q: Query, databaseName: string, minPercentage: string, run: string -> string)
    ensures var c := Contribution(q, databaseName, minPercentage, run);
      c.Ok? && c.value.Some? ==>
        var rec := Recommendation(run(Command(databaseName, minPercentage, PreparedQuery(q)).value)).value.value;
        |c.value.value| == |rec.1| > 0 &&
        forall k :: 0 <= k < |rec.1| ==>
          (c.value.value[k].Some? ==>
             c.value.value[k].value in q.columns && c.value.value[k].value.name == rec.1[k] &&
             c.value.value[k].value.table == rec.0) &&
          (c.value.value[k].None? ==> forall col :: col in q.columns ==> !(col.name == rec.1[k] && col.table == rec.0))
    ensures Contribution(q, databaseName, minPercentage, run).Err? <==>
      PreparedQuery(q).None? || Recommendation(run(Command(databaseName, minPercentage, PreparedQuery(q)).value)).Err?
  {
  }

  /** The index a fully resolved list stands for. */
  function AsIndex(cols: seq<Option<Column>>): (r: Option<Index>)
    ensures r.Some? <==> |cols| > 0 && forall k :: 0 <= k < |cols| ==> cols[k].Some?
    ensures r.Some? ==>
      (Valid(r.value) && |r.value.columns| == |cols| &&
       forall k :: 0 <= k < |cols| ==> r.value.columns[k] == cols[k].value)
  {
    if |cols| > 0 && forall k :: 0 <= k < |cols| ==> cols[k].Some? then
      Some(Index(seq(|cols|, k requires 0 <= k < |cols| && cols[k].Some? => cols[k].value)))
    else None
  }
}
