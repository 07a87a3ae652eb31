/**
 * selection/workload.py: queries, workloads and the set of columns a
 * workload can index.
 */
module Workloads {
  import opened Common
  import opened Schema
  import opened Indexes

  /** Query ids are integers for generated benchmarks and file names for parsed ones. */
  datatype QueryNr = IntNr(n: int) | TextNr(s: string)

  datatype Query = Query(nr: QueryNr, text: string, columns: seq<Column>)

  datatype Workload = Workload(queries: seq<Query>, databaseName: string)

  /** `Query(query_id, query_text)`: the text is stored lower-cased and no columns are set yet. */
  function NewQuery(nr: QueryNr, text: string): (q: Query)
    ensures q.nr == nr && IsLower(q.text) && |q.text| == |text|
    ensures q.columns == []
  {
    Query(nr, Lower(text), [])
  }

  /** `Column.single_column_index`: the single-column index over the column itself. */
  function SingleColumnIndex(c: Column): (ix: Index)
    ensures Valid(ix) && IsSingleColumn(ix)
    ensures ix.columns[0] == c && TableOf(ix) == c.table
  {
    Index([c])
  }

  /** The query columns one after another, as the loop in `indexable_columns` extends its list. */
  function AllColumns(queries: seq<Query>): seq<Column>
  {
    if |queries| == 0 then [] else AllColumns(queries[..|queries| - 1]) + queries[|queries| - 1].columns
  }

  /** Some query of the sequence references the column. */
  predicate Referenced(queries: seq<Query>, c: Column) {
    exists q :: q in queries && c in q.columns
  }

  lemma {:induction false} AllColumnsReferenced(queries: seq<Query>, c: Column)
    ensures c in AllColumns(queries) <==> Referenced(queries, c)
  {
    if |queries| > 0 {
      var init := queries[..|queries| - 1];
      var last := queries[|queries| - 1];
      AllColumnsReferenced(init, c);
      assert queries == init + [last];
      if Referenced(init, c) {
        var q :| q in init && c in q.columns;
        assert q in queries;
      }
      if Referenced(queries, c) && c !in last.columns {
        var q :| q in queries && c in q.columns;
        assert q in init;
      }
    }
  }

  /**
   * `indexable_columns()`: every column some query references, each once.
   * Python's set order is not modelled; the result keeps first occurrences.
   */
  method IndexableColumns(w: Workload) returns (r: seq<Column>)
    ensures Distinct(r)
    ensures forall c :: c in r <==> Referenced(w.queries, c)
  {
    var acc: seq<Column> := [];
    var i := 0;
    while i < |w.queries|
      invariant 0 <= i <= |w.queries|
      invariant acc == AllColumns(w.queries[..i])
    {
      assert w.queries[..i + 1][..i] == w.queries[..i];
      acc := acc + w.queries[i].columns;
      i := i + 1;
    }
    assert w.queries[..i] == w.queries;
    r := Dedup(acc);
    forall c ensures c in r <==> Referenced(w.queries, c) {
      AllColumnsReferenced(w.queries, c);
    }
  }
}
