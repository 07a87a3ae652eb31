/**
 * selection/index.py: an index is a non-empty sequence of columns. Python
 * compares Index objects by identity; here an index is a value, so two
 * indexes over the same columns are the same index. The slots that other
 * modules stamp on an index object live in the class IndexObject.
 */
module Indexes {
  import opened Common
  import opened Schema

  datatype Index = Index(columns: seq<Column>)

  /** Every index the constructor lets through has at least one column. */
  predicate Valid(ix: Index) {
    |ix.columns| > 0
  }

  /** `Index(columns)`: zero columns raise ValueError. */
  function NewIndex(columns: seq<Column>): (r: Result<Index>)
    ensures r.Ok? <==> |columns| > 0
    ensures r.Ok? ==> r.value.columns == columns && Valid(r.value)
    ensures r.Err? ==> r.error == "ValueError"
  {
    if |columns| == 0 then Err("ValueError") else Ok(Index(columns))
  }

  /** The `multicolumn` flag as the constructor sets it. */
  predicate IsMulticolumn(ix: Index) {
    if |ix.columns| == 1 then false else true
  }

  /** The `singlecolumn` flag, `is_single_column()`. */
  predicate IsSingleColumn(ix: Index) {
    !IsMulticolumn(ix)
  }

  lemma ColumnFlags(ix: Index)
    requires Valid(ix)
    ensures IsMulticolumn(ix) <==> |ix.columns| > 1
    ensures IsSingleColumn(ix) <==> |ix.columns| == 1
    ensures IsSingleColumn(ix) != IsMulticolumn(ix)
  {
  }

  /** `table()`: the table of the leading column. */
  function TableOf(ix: Index): string
    requires Valid(ix)
  {
    ix.columns[0].table
  }

  /** All columns of the index are on one table. */
  predicate OnOneTable(ix: Index) {
    forall k :: 0 <= k < |ix.columns| ==> ix.columns[k].table == ix.columns[0].table
  }

  /** `_column_names()`. */
  function ColumnNames(ix: Index): seq<string> {
    seq(|ix.columns|, k requires 0 <= k < |ix.columns| => ix.columns[k].name)
  }

  /** `index_idx()`: `<table>_<names joined by _>_idx`. */
  function IndexIdx(ix: Index): string
    requires Valid(ix)
  {
    TableOf(ix) + "_" + Join("_", ColumnNames(ix)) + "_idx"
  }

  /** `joined_column_names()`. */
  function JoinedColumnNames(ix: Index): string {
    Join(",", ColumnNames(ix))
  }

  /**
   * `joined_column_names()` lists the column names in index order: as long
   * as no name contains a comma, splitting on ',' gives them back.
   */
  lemma JoinedColumnNamesSplit(ix: Index)
    requires Valid(ix)
    requires forall k :: 0 <= k < |ix.columns| ==> !Contains(ix.columns[k].name, ",")
    ensures Split(JoinedColumnNames(ix), ",") == ColumnNames(ix)
    ensures |Split(JoinedColumnNames(ix), ",")| == |ix.columns|
  {
    SplitJoinUnit(',', ColumnNames(ix));
  }

  /**
   * `index_idx()` is the table, '_', the names, '_idx'; with names free of
   * '_' the middle part splits back into the column names.
   */
  lemma IndexIdxShape(ix: Index)
    requires Valid(ix)
    ensures StartsWith(IndexIdx(ix), TableOf(ix) + "_")
    ensures |IndexIdx(ix)| >= 4 && IndexIdx(ix)[|IndexIdx(ix)| - 4..] == "_idx"
    ensures (forall k :: 0 <= k < |ix.columns| ==> !Contains(ix.columns[k].name, "_")) ==>
      Split(IndexIdx(ix)[|TableOf(ix)| + 1..|IndexIdx(ix)| - 4], "_") == ColumnNames(ix)
  {
    var s := IndexIdx(ix);
    var mid := Join("_", ColumnNames(ix));
    assert s == (TableOf(ix) + "_") + mid + "_idx";
    assert s[..|TableOf(ix)| + 1] == TableOf(ix) + "_";
    assert s[|TableOf(ix)| + 1..|s| - 4] == mid;
    if forall k :: 0 <= k < |ix.columns| ==> !Contains(ix.columns[k].name, "_") {
      SplitJoinUnit('_', ColumnNames(ix));
    }
  }

  /** `__add__`: the columns of `a` followed by those of `b`. */
  function Add(a: Index, b: Index): Index {
    Index(a.columns + b.columns)
  }

  /** `subsumes(other)`: the other index's columns are a prefix of this one's. */
  predicate Subsumes(a: Index, b: Index) {
    |b.columns| <= |a.columns| && a.columns[..|b.columns|] == b.columns
  }

  /** A sum keeps its left operand as a prefix, on the same table. */
  lemma AddSubsumesLeft(a: Index, b: Index)
    requires Valid(a)
    ensures Valid(Add(a, b)) && Subsumes(Add(a, b), a) && TableOf(Add(a, b)) == TableOf(a)
    ensures |Add(a, b).columns| == |a.columns| + |b.columns|
    ensures Add(a, b).columns[|a.columns|..] == b.columns
  {
    assert Add(a, b).columns[..|a.columns|] == a.columns;
  }

  /** Subsumption is a partial order on indexes. */
  lemma SubsumesOrder(a: Index, b: Index, c: Index)
    ensures Subsumes(a, a)
    ensures Subsumes(a, b) && Subsumes(b, c) ==> Subsumes(a, c)
    ensures Subsumes(a, b) && Subsumes(b, a) ==> a == b
  {
    assert a.columns[..|a.columns|] == a.columns;
    if Subsumes(a, b) && Subsumes(b, c) {
      assert a.columns[..|c.columns|] == a.columns[..|b.columns|][..|c.columns|];
    }
  }

  /** `appendable_by(other)`, in the order the source tests its three conditions. */
  predicate AppendableBy(a: Index, b: Index)
    requires Valid(a) && Valid(b)
  {
    if a.columns[0].table == b.columns[0].table && b.columns[0] !in a.columns && |b.columns| == 1
    then true else false
  }

  /**
   * For an index on one table without repeated columns, `appendable_by(b)`
   * holds exactly when `b` is single-column and `a + b` is again an index on
   * one table without repeated columns.
   */
  lemma AppendableByMeansCleanExtension(a: Index, b: Index)
    requires Valid(a) && Valid(b) && OnOneTable(a) && Distinct(a.columns)
    ensures AppendableBy(a, b) <==>
      (IsSingleColumn(b) && OnOneTable(Add(a, b)) && Distinct(Add(a, b).columns))
  {
    var s := Add(a, b).columns;
    var n := |a.columns|;
    if AppendableBy(a, b) {
      forall i, j | 0 <= i < j < |s| ensures s[i] != s[j] {
        if j == n { assert s[j] == b.columns[0]; assert s[i] in a.columns; }
      }
    }
    if IsSingleColumn(b) && OnOneTable(Add(a, b)) && Distinct(s) {
      forall i | 0 <= i < n ensures a.columns[i] != b.columns[0] {
        assert s[i] == a.columns[i] && s[n] == b.columns[0];
      }
    }
  }

  /** The text of a column list, `str(columns)` for a Python list. */
  function ColumnsRepr(cols: seq<Column>): string {
    "[" + Join(", ", seq(|cols|, k requires 0 <= k < |cols| => ColumnRepr(cols[k]))) + "]"
  }

  /** `__lt__`: the text forms of the column lists, compared as strings. */
  predicate IndexLt(a: Index, b: Index) {
    StrLt(ColumnsRepr(a.columns), ColumnsRepr(b.columns))
  }

  /** The order `sorted` uses: `a` may precede `b` unless `b < a`. */
  predicate IndexLe(a: Index, b: Index) {
    !IndexLt(b, a)
  }

  lemma IndexLeIsTotal()
    ensures Total(IndexLe)
  {
    forall a: Index, b: Index ensures IndexLe(a, b) || IndexLe(b, a) {
      var ra, rb := ColumnsRepr(a.columns), ColumnsRepr(b.columns);
      if StrLe(ra, rb) && StrLe(rb, ra) { StrLeAntisymmetric(ra, rb); }
    }
  }

  /** Python's `sorted(indexes)`. */
  function SortIndexes(s: seq<Index>): (r: seq<Index>)
    ensures multiset(r) == multiset(s)
    ensures SortedBy(r, IndexLe)
  {
    IndexLeIsTotal();
    SortSorted(s, IndexLe);
    Sort(s, IndexLe)
  }

  /**
   * The text of a column tuple, `str(columns)` for a Python tuple: the
   * indexes built from `itertools.permutations` hold tuples, and a tuple of
   * one column keeps a trailing comma.
   */
  function ColumnsTupleRepr(cols: seq<Column>): string {
    "(" + Join(", ", seq(|cols|, k requires 0 <= k < |cols| => ColumnRepr(cols[k]))) +
    (if |cols| == 1 then "," else "") + ")"
  }

  /** `__lt__` on indexes whose columns are tuples. */
  predicate TupleIndexLt(a: Index, b: Index) {
    StrLt(ColumnsTupleRepr(a.columns), ColumnsTupleRepr(b.columns))
  }

  /** The order `sorted` uses on such indexes. */
  predicate TupleIndexLe(a: Index, b: Index) {
    !TupleIndexLt(b, a)
  }

  lemma TupleIndexLeIsTotal()
    ensures Total(TupleIndexLe)
  {
    forall a: Index, b: Index ensures TupleIndexLe(a, b) || TupleIndexLe(b, a) {
      var ra, rb := ColumnsTupleRepr(a.columns), ColumnsTupleRepr(b.columns);
      if StrLe(ra, rb) && StrLe(rb, ra) { StrLeAntisymmetric(ra, rb); }
    }
  }

  /** Python's `sorted(indexes)` over indexes built from column tuples. */
  function SortTupleIndexes(s: seq<Index>): (r: seq<Index>)
    ensures multiset(r) == multiset(s)
    ensures SortedBy(r, TupleIndexLe)
  {
    TupleIndexLeIsTotal();
    SortSorted(s, TupleIndexLe);
    Sort(s, TupleIndexLe)
  }

  /**
   * The two renderings order differently: `(C t.a,)` precedes `(C t.a1,)`
   * because a comma precedes a digit, while `[C t.a1]` precedes `[C t.a]`
   * because a digit precedes the closing bracket.
   */
  lemma TupleOrderIsNotListOrder()
    ensures TupleIndexLt(Index([Column("a", "t")]), Index([Column("a1", "t")]))
    ensures IndexLt(Index([Column("a1", "t")]), Index([Column("a", "t")]))
  {
    var a, b := Column("a", "t"), Column("a1", "t");
    SingleColumnRenderings(a);
    SingleColumnRenderings(b);
    assert ColumnsTupleRepr([a]) == "(C t.a" + ",)";
    assert ColumnsTupleRepr([b]) == "(C t.a" + "1,)";
    StrLeCommonPrefix("(C t.a", ",)", "1,)");
    assert ColumnsRepr([b]) == "[C t.a" + "1]";
    assert ColumnsRepr([a]) == "[C t.a" + "]";
    StrLeCommonPrefix("[C t.a", "1]", "]");
  }

  /** The two renderings of a single column. */
  lemma SingleColumnRenderings(c: Column)
    ensures ColumnsRepr([c]) == "[" + ColumnRepr(c) + "]"
    ensures ColumnsTupleRepr([c]) == "(" + ColumnRepr(c) + ",)"
  {
    assert Join(", ", [ColumnRepr(c)]) == ColumnRepr(c);
    assert seq(1, k requires 0 <= k < 1 => ColumnRepr([c][k])) == [ColumnRepr(c)];
  }

  /** The summed sizes of some indexes, `sum(index.estimated_size for index in s)`. */
  function TotalSize(sizeOf: Index -> nat, s: seq<Index>): nat {
    if |s| == 0 then 0 else TotalSize(sizeOf, s[..|s| - 1]) + sizeOf(s[|s| - 1])
  }

  /**
   * An index object with the slots that the what-if layer fills in:
   * `estimated_size`, `hypopg_name` and `hypopg_oid`.
   */
  class IndexObject {
    const index: Index
    var estimatedSize: Option<nat>
    var hypopgName: Option<string>
    var hypopgOid: Option<nat>

    /** A fresh index has no estimated size and no hypothetical-index name. */
    constructor (ix: Index)
      requires Valid(ix)
      ensures index == ix
      ensures estimatedSize == None && hypopgName == None && hypopgOid == None
    {
      index := ix;
      estimatedSize := None;
      hypopgName := None;
      hypopgOid := None;
    }
  }
}
