/**
 * selection/algorithms/microsoft/multi_column_index_generation.py: the
 * object the AutoAdmin helpers use to widen indexes. It keeps the
 * single-column members of the potential indexes and, for each given
 * index, appends every such column that is on the index's table and not
 * yet in it.
 */
module MultiColumnIndexGenerations {
  import opened Common
  import opened Indexes
  import opened Search

  /** `single_column_indexes`: the single-column potential indexes, in order. */
  function SingleColumnIndexes(potential: seq<Index>): seq<Index> {
    Filter(potential, IsSingleColumn)
  }

  /** Exactly the single-column potential indexes, in their order; each has one column. */
  lemma SingleColumnIndexesExactly(potential: seq<Index>)
    ensures forall ix :: ix in SingleColumnIndexes(potential) <==> ix in potential && IsSingleColumn(ix)
    ensures forall ix :: ix in SingleColumnIndexes(potential) ==> |ix.columns| == 1
    ensures SubsequenceOf(SingleColumnIndexes(potential), potential)
  {
    FilterSubsequence(potential, IsSingleColumn);
  }

  /** All given indexes are single-column. */
  predicate AllSingle(singles: seq<Index>) {
    forall s :: s in singles ==> |s.columns| == 1
  }

  /** What one candidate adds to one index: its column appended, if new and on the index's table. */
  function Appended(ix: Index, s: Index): seq<Index>
    requires Valid(ix) && Valid(s)
  {
    var c := s.columns[0];
    if c in ix.columns then []
    else if c.table == TableOf(ix) then [Index(ix.columns + [c])]
    else []
  }

  /** The inner loop's additions for one index, in candidate order. */
  function ExtensionsOf(ix: Index, singles: seq<Index>): seq<Index>
    requires Valid(ix) && AllSingle(singles)
  {
    if |singles| == 0 then []
    else ExtensionsOf(ix, singles[..|singles| - 1]) + Appended(ix, singles[|singles| - 1])
  }

  /** What `create` returns: index-major, then candidate order. */
  function Created(indexes: seq<Index>, singles: seq<Index>): seq<Index>
    requires forall ix :: ix in indexes ==> Valid(ix)
    requires AllSingle(singles)
  {
    if |indexes| == 0 then []
    else Created(indexes[..|indexes| - 1], singles) + ExtensionsOf(indexes[|indexes| - 1], singles)
  }

  /**
   * `create` as written (line 20): for an index built from a list of
   * columns, as `Index([column])` builds every one, `index.columns +
   * (candidate_column,)` adds a tuple to a list, a TypeError at the first
   * candidate that would be appended.
   */
  function CreatedAsWritten(indexes: seq<Index>, singles: seq<Index>): Result<seq<Index>>
    requires forall ix :: ix in indexes ==> Valid(ix)
    requires AllSingle(singles)
  {
    if |indexes| == 0 then Ok([])
    else
      var before := CreatedAsWritten(indexes[..|indexes| - 1], singles);
      if before.Err? then before
      else if |ExtensionsOf(indexes[|indexes| - 1], singles)| > 0 then Err("TypeError")
      else before
  }

  /**
   * As written `create` fails exactly when the intended one would return
   * some candidate, and otherwise returns the same (empty) list.
   */
  lemma {:induction false} CreatedAsWrittenFails(indexes: seq<Index>, singles: seq<Index>)
    requires forall ix :: ix in indexes ==> Valid(ix)
    requires AllSingle(singles)
    ensures CreatedAsWritten(indexes, singles).Err? <==> |Created(indexes, singles)| > 0
    ensures CreatedAsWritten(indexes, singles).Err? ==> CreatedAsWritten(indexes, singles).error == "TypeError"
    ensures CreatedAsWritten(indexes, singles).Ok? ==> CreatedAsWritten(indexes, singles).value == Created(indexes, singles)
  {
    if |indexes| > 0 {
      CreatedAsWrittenFails(indexes[..|indexes| - 1], singles);
    }
  }

  class MultiColumnIndexGeneration {
    const potentialIndexes: seq<Index>
    const singleColumnIndexes: seq<Index>

    /** The single-column indexes are those of the potential indexes. */
    predicate Valid() {
      singleColumnIndexes == SingleColumnIndexes(potentialIndexes)
    }

    /** `__init__`: keep the potential indexes and their single-column members. */
    constructor (potentialIndexes: seq<Index>)
      ensures this.potentialIndexes == potentialIndexes
      ensures Valid()
    {
      this.potentialIndexes := potentialIndexes;
      singleColumnIndexes := Filter(potentialIndexes, IsSingleColumn);
    }

    /** `create`: for each index and each single-column candidate, skip a present column, else append a same-table one. */
    method Create(indexes: seq<Index>) returns (r: seq<Index>)
      requires Valid()
      requires forall ix :: ix in indexes ==> Indexes.Valid(ix)
      ensures AllSingle(singleColumnIndexes)
      ensures r == Created(indexes, singleColumnIndexes)
    {
      SingleColumnIndexesExactly(potentialIndexes);
      var singles := singleColumnIndexes;
      r := [];
      var i := 0;
      while i < |indexes|
        invariant 0 <= i <= |indexes|
        invariant r == Created(indexes[..i], singles)
      {
        r := AppendExtensions(r, indexes[i], singles);
        CreatedStep(indexes, singles, i);
        i := i + 1;
      }
      assert indexes[..i] == indexes;
    }
  }

  /** The inner loop of `create` for one index: each new same-table candidate column is appended. */
  method AppendExtensions(base: seq<Index>, ix: Index, singles: seq<Index>) returns (r: seq<Index>)
    requires Indexes.Valid(ix) && AllSingle(singles)
    ensures r == base + ExtensionsOf(ix, singles)
  {
    r := base;
    var j := 0;
    while j < |singles|
      invariant 0 <= j <= |singles|
      invariant r == base + ExtensionsOf(ix, singles[..j])
    {
      ExtensionsStep(ix, singles, j);
      var c := singles[j].columns[0];
      if c in ix.columns {
        j := j + 1;
        continue;
      }
      if c.table == ix.columns[0].table {
        r := r + [Index(ix.columns + [c])];
      }
      j := j + 1;
    }
    assert singles[..j] == singles;
  }

  /** One more candidate: its own additions come last. */
  lemma ExtensionsStep(ix: Index, singles: seq<Index>, j: nat)
    requires Indexes.Valid(ix) && AllSingle(singles) && j < |singles|
    ensures ExtensionsOf(ix, singles[..j + 1]) == ExtensionsOf(ix, singles[..j]) + Appended(ix, singles[j])
  {
    assert singles[..j + 1][..j] == singles[..j];
  }

  /** One more index: its extensions come last. */
  lemma CreatedStep(indexes: seq<Index>, singles: seq<Index>, i: nat)
    requires forall ix :: ix in indexes ==> Indexes.Valid(ix)
    requires AllSingle(singles) && i < |indexes|
    ensures Created(indexes[..i + 1], singles) == Created(indexes[..i], singles) + ExtensionsOf(indexes[i], singles)
  {
    assert indexes[..i + 1][..i] == indexes[..i];
  }

  /**
   * `x` is an input index `ix` extended by a single-column candidate `s`
   * with `ix.appendable_by(s)`: same table, column not yet present.
   */
  ghost predicate CreatedFrom(indexes: seq<Index>, singles: seq<Index>, x: Index) {
    exists ix, s :: ix in indexes && s in singles && Indexes.Valid(ix) && Indexes.Valid(s) &&
      AppendableBy(ix, s) && x == Add(ix, s)
  }

  /** Every created index comes from an input index and a candidate it is appendable by. */
  lemma {:induction false} CreatedSource(indexes: seq<Index>, singles: seq<Index>, x: Index)
    returns (ix: Index, s: Index)
    requires forall ix :: ix in indexes ==> Indexes.Valid(ix)
    requires AllSingle(singles)
    requires x in Created(indexes, singles)
    ensures ix in indexes && s in singles && Indexes.Valid(ix) && Indexes.Valid(s)
    ensures AppendableBy(ix, s) && x == Add(ix, s)
  {
    var init := indexes[..|indexes| - 1];
    var last := indexes[|indexes| - 1];
    assert indexes == init + [last];
    if x in ExtensionsOf(last, singles) {
      ix := last;
      s := ExtensionSource(last, singles, x);
    } else {
      ix, s := CreatedSource(init, singles, x);
    }
  }

  /** The candidate behind one extension of an index. */
  lemma {:induction false} ExtensionSource(ix: Index, singles: seq<Index>, x: Index) returns (s: Index)
    requires Indexes.Valid(ix) && AllSingle(singles)
    requires x in ExtensionsOf(ix, singles)
    ensures s in singles && Indexes.Valid(s) && AppendableBy(ix, s) && x == Add(ix, s)
  {
    var init := singles[..|singles| - 1];
    var last := singles[|singles| - 1];
    assert singles == init + [last];
    if x in Appended(ix, last) {
      s := last;
      assert last.columns == [last.columns[0]];
    } else {
      s := ExtensionSource(ix, init, x);
    }
  }

  /** Every appendable pair of an input index and a candidate is created. */
  lemma {:induction false} CreatedPresent(indexes: seq<Index>, singles: seq<Index>, ix: Index, s: Index)
    requires forall ix :: ix in indexes ==> Indexes.Valid(ix)
    requires AllSingle(singles)
    requires ix in indexes && s in singles && AppendableBy(ix, s)
    ensures Add(ix, s) in Created(indexes, singles)
  {
    var init := indexes[..|indexes| - 1];
    var last := indexes[|indexes| - 1];
    assert indexes == init + [last];
    if ix == last {
      ExtensionPresent(ix, singles, s);
    } else {
      CreatedPresent(init, singles, ix, s);
    }
  }

  lemma {:induction false} ExtensionPresent(ix: Index, singles: seq<Index>, s: Index)
    requires Indexes.Valid(ix) && AllSingle(singles)
    requires s in singles && AppendableBy(ix, s)
    ensures Add(ix, s) in ExtensionsOf(ix, singles)
  {
    var init := singles[..|singles| - 1];
    var last := singles[|singles| - 1];
    assert singles == init + [last];
    if s == last {
      assert s.columns == [s.columns[0]];
      assert Appended(ix, s) == [Add(ix, s)];
    } else {
      ExtensionPresent(ix, init, s);
    }
  }

  /**
   * `create` returns exactly the input indexes extended by a single-column
   * candidate they are appendable by.
   */
  lemma CreatedMeaning(indexes: seq<Index>, singles: seq<Index>)
    requires forall ix :: ix in indexes ==> Indexes.Valid(ix)
    requires AllSingle(singles)
    ensures forall x :: x in Created(indexes, singles) <==> CreatedFrom(indexes, singles, x)
  {
    forall x ensures x in Created(indexes, singles) <==> CreatedFrom(indexes, singles, x) {
      if x in Created(indexes, singles) {
        var ix, s := CreatedSource(indexes, singles, x);
      }
      if CreatedFrom(indexes, singles, x) {
        var ix, s :| ix in indexes && s in singles && Indexes.Valid(ix) && Indexes.Valid(s) &&
          AppendableBy(ix, s) && x == Add(ix, s);
        CreatedPresent(indexes, singles, ix, s);
      }
    }
  }

  /**
   * Extending an index on one table without repeated columns yields again
   * such an index, one column wider, that keeps the index as its prefix.
   */
  lemma CreatedClean(indexes: seq<Index>, singles: seq<Index>, x: Index)
    requires forall ix :: ix in indexes ==> Indexes.Valid(ix) && OnOneTable(ix) && Distinct(ix.columns)
    requires AllSingle(singles)
    requires x in Created(indexes, singles)
    ensures OnOneTable(x) && Distinct(x.columns)
    ensures exists ix :: ix in indexes && Subsumes(x, ix) && |x.columns| == |ix.columns| + 1
  {
    var ix, s := CreatedSource(indexes, singles, x);
    AppendableByMeansCleanExtension(ix, s);
    AddSubsumesLeft(ix, s);
  }

  /** The output is index-major: what the indexes of `a` create comes before what those of `b` create. */
  lemma {:induction false} CreatedIndexMajor(a: seq<Index>, b: seq<Index>, singles: seq<Index>)
    requires forall ix :: ix in a ==> Indexes.Valid(ix)
    requires forall ix :: ix in b ==> Indexes.Valid(ix)
    requires AllSingle(singles)
    ensures Created(a + b, singles) == Created(a, singles) + Created(b, singles)
  {
    if |b| == 0 {
      assert a + b == a;
    } else {
      var init := b[..|b| - 1];
      var x := b[|b| - 1];
      assert (a + b)[..|a + b| - 1] == a + init;
      assert (a + b)[|a + b| - 1] == x;
      assert forall ix :: ix in init ==> ix in b;
      CreatedIndexMajor(a, init, singles);
      var ext := ExtensionsOf(x, singles);
      assert Created(a + b, singles) == Created(a + init, singles) + ext;
      assert Created(b, singles) == Created(init, singles) + ext;
      assert (Created(a, singles) + Created(init, singles)) + ext == Created(a, singles) + (Created(init, singles) + ext);
    }
  }

  /** Each index gains at most one extension per candidate. */
  lemma {:induction false} CreatedBound(indexes: seq<Index>, singles: seq<Index>)
    requires forall ix :: ix in indexes ==> Indexes.Valid(ix)
    requires AllSingle(singles)
    ensures |Created(indexes, singles)| <= |indexes| * |singles|
  {
    if |indexes| > 0 {
      var n := |indexes|;
      var m := |singles|;
      var before := |Created(indexes[..n - 1], singles)|;
      var added := |ExtensionsOf(indexes[n - 1], singles)|;
      assert before <= (n - 1) * m by {
        CreatedBound(indexes[..n - 1], singles);
      }
      assert added <= m by {
        ExtensionsBound(indexes[n - 1], singles);
      }
      assert |Created(indexes, singles)| == before + added;
      assert (n - 1) * m + m == n * m;
    }
  }

  lemma {:induction false} ExtensionsBound(ix: Index, singles: seq<Index>)
    requires Indexes.Valid(ix) && AllSingle(singles)
    ensures |ExtensionsOf(ix, singles)| <= |singles|
  {
    if |singles| > 0 {
      ExtensionsBound(ix, singles[..|singles| - 1]);
    }
  }
}
