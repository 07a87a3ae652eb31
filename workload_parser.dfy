/**
 * selection/workload_parser.py: a custom workload is one query per `.sql`
 * file; each query lists the schema columns its text mentions.
 *
 * The schema (`get_tables`, read from the database catalogue) is a
 * parameter: the table dictionary as (key, table) pairs in its iteration
 * order. The directory listing is the sequence of file names, and reading a
 * file is the function `read`.
 */
module WorkloadParsing {
  import opened Common
  import opened Schema
  import opened Workloads

  /** The columns, in order, whose name occurs in the text. */
  function Mentioned(text: string, columns: seq<Column>): seq<Column> {
    if |columns| == 0 then []
    else
      var last := columns[|columns| - 1];
      Mentioned(text, columns[..|columns| - 1]) + (if Contains(text, last.name) then [last] else [])
  }

  /**
   * The columns `store_indexable_columns` appends: table by table in
   * dictionary order, the mentioned columns of each table whose key occurs
   * in the text.
   */
  function Indexable(text: string, tables: seq<(string, Table)>): seq<Column> {
    if |tables| == 0 then []
    else
      var last := tables[|tables| - 1];
      Indexable(text, tables[..|tables| - 1]) + (if Contains(text, last.0) then Mentioned(text, last.1.columns) else [])
  }

  /** `store_indexable_columns`: the query's column list is extended in place (here: the query returned). */
  method StoreIndexableColumns(q: Query, tables: seq<(string, Table)>) returns (stored: Query)
    ensures stored == q.(columns := q.columns + Indexable(q.text, tables))
  {
    var columns := q.columns;
    var i := 0;
    while i < |tables|
      invariant 0 <= i <= |tables|
      invariant columns == q.columns + Indexable(q.text, tables[..i])
    {
      var (tableName, table) := tables[i];
      assert tables[..i + 1][..i] == tables[..i];
      if Contains(q.text, tableName) {
        columns := AppendMentioned(columns, q.text, table.columns);
      }
      i := i + 1;
    }
    assert tables[..i] == tables;
    stored := q.(columns := columns);
  }

  /** The inner loop of `store_indexable_columns`: the table's columns whose name the text mentions. */
  method AppendMentioned(before: seq<Column>, text: string, tableColumns: seq<Column>) returns (columns: seq<Column>)
    ensures columns == before + Mentioned(text, tableColumns)
  {
    columns := before;
    var j := 0;
    while j < |tableColumns|
      invariant 0 <= j <= |tableColumns|
      invariant columns == before + Mentioned(text, tableColumns[..j])
    {
      var column := tableColumns[j];
      assert tableColumns[..j + 1][..j] == tableColumns[..j];
      if Contains(text, column.name) {
        columns := columns + [column];
      }
      j := j + 1;
    }
    assert tableColumns[..j] == tableColumns;
  }

  /** `file_name.split("/")[-1]`. */
  function QueryId(fileName: string): string {
    var parts := Split(fileName, "/");
    parts[|parts| - 1]
  }

  /** The queries of the given `.sql` files, in sorted file-name order. */
  function ParsedQueries(sortedFiles: seq<string>, read: string -> string, tables: seq<(string, Table)>):
    (qs: seq<Query>)
  {
    seq(|sortedFiles|, k requires 0 <= k < |sortedFiles| =>
      var q := NewQuery(TextNr(QueryId(sortedFiles[k])), read(sortedFiles[k]));
      q.(columns := q.columns + Indexable(q.text, tables)))
  }

  /**
   * `execute` as written: it builds every query and then calls
   * `Workload(queries)`, but the workload constructor also requires the
   * database name, so the call raises a TypeError.
   */
  method ExecuteAsWritten(files: seq<string>, read: string -> string, tables: seq<(string, Table)>)
    returns (r: Result<Workload>)
    ensures r == Err("TypeError")
  {
    var _ := ParseQueries(Sort(files, StrLe), read, tables);
    r := Err("TypeError");
  }

  /** `execute` with the workload built over the parser's database name. */
  method Execute(files: seq<string>, read: string -> string, tables: seq<(string, Table)>, databaseName: string)
    returns (w: Workload)
    ensures w == Workload(ParsedQueries(Sort(files, StrLe), read, tables), databaseName)
  {
    var queries := ParseQueries(Sort(files, StrLe), read, tables);
    w := Workload(queries, databaseName);
  }

  /** The loop of `execute` over the sorted files. */
  method ParseQueries(sortedFiles: seq<string>, read: string -> string, tables: seq<(string, Table)>)
    returns (queries: seq<Query>)
    ensures queries == ParsedQueries(sortedFiles, read, tables)
  {
    queries := [];
    var i := 0;
    while i < |sortedFiles|
      invariant 0 <= i <= |sortedFiles|
      invariant queries == ParsedQueries(sortedFiles[..i], read, tables)
    {
      var fileName := sortedFiles[i];
      var queryText := read(fileName);
      var queryId := QueryId(fileName);
      var query := NewQuery(TextNr(queryId), queryText);
      query := StoreIndexableColumns(query, tables);
      queries := queries + [query];
      i := i + 1;
    }
    assert sortedFiles[..i] == sortedFiles;
  }

  // ------------------------------------------------------------ properties

  /**
   * A column is appended exactly when the text mentions the key of a table
   * that holds it and mentions the column's name.
   */
  lemma {:induction false} IndexableMeaning(text: string, tables: seq<(string, Table)>, c: Column)
    ensures c in Indexable(text, tables) <==>
      exists k :: 0 <= k < |tables| && Contains(text, tables[k].0) && c in tables[k].1.columns && Contains(text, c.name)
  {
    if |tables| > 0 {
      var init := tables[..|tables| - 1];
      var last := tables[|tables| - 1];
      IndexableMeaning(text, init, c);
      MentionedMeaning(text, last.1.columns, c);
      if exists k :: 0 <= k < |init| && Contains(text, init[k].0) && c in init[k].1.columns && Contains(text, c.name) {
        var k :| 0 <= k < |init| && Contains(text, init[k].0) && c in init[k].1.columns && Contains(text, c.name);
        assert tables[k] == init[k];
      }
      if exists k :: 0 <= k < |tables| && Contains(text, tables[k].0) && c in tables[k].1.columns && Contains(text, c.name) {
        var k :| 0 <= k < |tables| && Contains(text, tables[k].0) && c in tables[k].1.columns && Contains(text, c.name);
        if k < |init| {
          assert init[k] == tables[k];
        }
      }
    }
  }

  /**
   * The appended columns follow the table order: those of earlier tables
   * come first, and within a table its column order is kept.
   */
  lemma {:induction false} IndexableInTableOrder(text: string, a: seq<(string, Table)>, b: seq<(string, Table)>)
    ensures Indexable(text, a + b) == Indexable(text, a) + Indexable(text, b)
  {
    if |b| > 0 {
      var bInit := b[..|b| - 1];
      assert (a + b)[..|a + b| - 1] == a + bInit;
      IndexableInTableOrder(text, a, bInit);
    } else {
      assert a + b == a;
    }
  }

  /** One table on its own contributes its mentioned columns, in column order, or nothing. */
  lemma OneTable(text: string, key: string, t: Table)
    ensures Indexable(text, [(key, t)]) == if Contains(text, key) then Mentioned(text, t.columns) else []
    ensures forall c :: c in Mentioned(text, t.columns) <==> c in t.columns && Contains(text, c.name)
  {
    assert [(key, t)][..0] == [];
    forall c ensures c in Mentioned(text, t.columns) <==> c in t.columns && Contains(text, c.name) {
      MentionedMeaning(text, t.columns, c);
    }
  }

  /** A column is kept exactly when it is listed and its name occurs in the text. */
  lemma {:induction false} MentionedMeaning(text: string, columns: seq<Column>, c: Column)
    ensures c in Mentioned(text, columns) <==> c in columns && Contains(text, c.name)
  {
    if |columns| > 0 {
      var init := columns[..|columns| - 1];
      MentionedMeaning(text, init, c);
      assert columns == init + [columns[|columns| - 1]];
    }
  }

  /** The last character position of `sep` in a string is unique. */
  lemma LastSeparator(a: string, b: string, a': string, b': string)
    requires a + "/" + b == a' + "/" + b'
    requires !Contains(b, "/") && !Contains(b', "/")
    ensures b == b'
  {
    var s := a + "/" + b;
    NoSlash(b);
    NoSlash(b');
    assert s[|s| - |b| - 1] == '/';
    assert s[|s| - |b'| - 1] == '/';
    assert |b| == |b'|;
    assert b == s[|s| - |b|..] == b';
  }

  lemma NoSlash(x: string)
    requires !Contains(x, "/")
    ensures forall k :: 0 <= k < |x| ==> x[k] != '/'
  {
    forall k | 0 <= k < |x| ensures x[k] != '/' {
      assert x[k..k + 1] == [x[k]];
      assert !OccursAt(x, "/", k);
    }
  }

  /**
   * The query id is the file's base name: it contains no '/', the file name
   * ends with it, and for a path `dir/base` it is `base` (`1.sql` for
   * `custom_workloads/example/1.sql`).
   */
  lemma QueryIdIsBaseName(fileName: string, dir: string, base: string)
    ensures !Contains(QueryId(fileName), "/")
    ensures var id := QueryId(fileName); |id| <= |fileName| && fileName[|fileName| - |id|..] == id
    ensures !Contains(base, "/") ==> QueryId(dir + "/" + base) == base
  {
    QueryIdSuffix(fileName);
    if !Contains(base, "/") {
      QueryIdOfPath(dir, base);
    }
  }

  lemma QueryIdSuffix(fileName: string)
    ensures !Contains(QueryId(fileName), "/")
    ensures var id := QueryId(fileName); |id| <= |fileName| && fileName[|fileName| - |id|..] == id
  {
    SplitLast(fileName);
    var parts := Split(fileName, "/");
    var id := parts[|parts| - 1];
    if |parts| > 1 {
      EndsWithLast(fileName, Join("/", parts[..|parts| - 1]) + "/", id);
    }
  }

  lemma EndsWithLast(s: string, front: string, last: string)
    requires s == front + last
    ensures |last| <= |s| && s[|s| - |last|..] == last
  {
  }

  lemma QueryIdOfPath(dir: string, base: string)
    requires !Contains(base, "/")
    ensures QueryId(dir + "/" + base) == base
  {
    var s := dir + "/" + base;
    SplitLast(s);
    SlashInPath(dir, base);
    var parts := Split(s, "/");
    if |parts| > 1 {
      var init := Join("/", parts[..|parts| - 1]);
      LastSeparator(dir, base, init, parts[|parts| - 1]);
    }
  }

  lemma SlashInPath(dir: string, base: string)
    ensures Contains(dir + "/" + base, "/")
  {
    assert OccursAt(dir + "/" + base, "/", |dir|);
  }

  /** A split's last part ends the string and, when there are several parts, follows the last separator. */
  lemma SplitLast(s: string)
    ensures var parts := Split(s, "/"); var id := parts[|parts| - 1];
      !Contains(id, "/") &&
      (|parts| == 1 ==> id == s) &&
      (|parts| > 1 ==> s == Join("/", parts[..|parts| - 1]) + "/" + id)
  {
    SplitLastAt(s, "/");
  }

  lemma SplitLastAt(s: string, sep: string)
    requires |sep| > 0
    ensures var parts := Split(s, sep); var id := parts[|parts| - 1];
      !Contains(id, sep) &&
      (|parts| == 1 ==> id == s) &&
      (|parts| > 1 ==> s == Join(sep, parts[..|parts| - 1]) + sep + id)
  {
    JoinLast(Split(s, sep), sep);
  }

  lemma {:induction false} JoinLast(parts: seq<string>, sep: string)
    requires |parts| > 0
    ensures |parts| == 1 ==> Join(sep, parts) == parts[0]
    ensures |parts| > 1 ==> Join(sep, parts) == Join(sep, parts[..|parts| - 1]) + sep + parts[|parts| - 1]
  {
    if |parts| > 2 {
      JoinLast(parts[1..], sep);
      assert parts[1..][..|parts| - 2] == parts[..|parts| - 1][1..];
    } else if |parts| == 2 {
      assert parts[..1][0] == parts[0];
    }
  }

  /**
   * `execute`: one query per file, in sorted file-name order; each carries
   * its base-name id, its lower-cased text and the columns that text
   * mentions.
   */
  lemma ExecuteShape(files: seq<string>, read: string -> string, tables: seq<(string, Table)>, databaseName: string,
                     k: nat)
    ensures var sorted := Sort(files, StrLe);
      var w := Workload(ParsedQueries(sorted, read, tables), databaseName);
      SortedBy(sorted, StrLe) && multiset(sorted) == multiset(files) &&
      |w.queries| == |files| && w.databaseName == databaseName &&
      (k < |files| ==>
        w.queries[k].nr == TextNr(QueryId(sorted[k])) && w.queries[k].text == Lower(read(sorted[k])) &&
        w.queries[k].columns == Indexable(Lower(read(sorted[k])), tables))
  {
    StrLeIsTotal();
    SortSorted(files, StrLe);
  }
}
