/**
 * selection/utils.py: unit conversions and grouping indexes by table.
 */
module SelectionUtils {
  import opened Common
  import opened Indexes

  /** `b_to_mb`. */
  function BytesToMegabytes(b: real): real {
    b / 1000.0 / 1000.0
  }

  /** `mb_to_b`. */
  function MegabytesToBytes(mb: real): real {
    mb * 1000.0 * 1000.0
  }

  /** `s_to_ms`. */
  function SecondsToMilliseconds(s: real): real {
    s * 1000.0
  }

  /** The two storage conversions are inverse to each other, and one MB is a million bytes. */
  lemma StorageConversionsInverse(x: real)
    ensures BytesToMegabytes(MegabytesToBytes(x)) == x
    ensures MegabytesToBytes(BytesToMegabytes(x)) == x
    ensures MegabytesToBytes(x) == x * 1000000.0
    ensures SecondsToMilliseconds(x) == x * 1000.0
    ensures BytesToMegabytes(17000000.0) == 17.0 && MegabytesToBytes(5.0) == 5000000.0
    ensures SecondsToMilliseconds(17.0) == 17000.0
  {
  }

  /** The indexes of the input on table `t`, in input order. */
  function OnTable(indexes: seq<Index>, t: string): (r: seq<Index>)
    requires forall k :: 0 <= k < |indexes| ==> Valid(indexes[k])
    ensures forall k :: 0 <= k < |r| ==> Valid(r[k]) && TableOf(r[k]) == t
    ensures multiset(r) <= multiset(indexes)
  {
    if |indexes| == 0 then []
    else
      var rest := OnTable(indexes[..|indexes| - 1], t);
      var x := indexes[|indexes| - 1];
      assert indexes == indexes[..|indexes| - 1] + [x];
      if TableOf(x) == t then rest + [x] else rest
  }

  /**
   * `indexes_by_table`: the keys are exactly the tables of the input, and
   * every table's list holds its indexes in input order.
   */
  method IndexesByTable(indexes: seq<Index>) returns (r: map<string, seq<Index>>)
    requires forall k :: 0 <= k < |indexes| ==> Valid(indexes[k])
    ensures forall t :: t in r <==> exists k :: 0 <= k < |indexes| && TableOf(indexes[k]) == t
    ensures forall t :: t in r ==> r[t] == OnTable(indexes, t)
  {
    r := map[];
    var i := 0;
    while i < |indexes|
      invariant 0 <= i <= |indexes|
      invariant Grouped(indexes, i, r)
    {
      r := GroupNext(indexes, i, r);
      i := i + 1;
    }
    assert indexes[..i] == indexes;
  }

  /** `r` groups the first `i` indexes by table. */
  ghost predicate Grouped(indexes: seq<Index>, i: nat, r: map<string, seq<Index>>)
    requires i <= |indexes| && forall k :: 0 <= k < |indexes| ==> Valid(indexes[k])
  {
    (forall t :: t in r <==> exists k :: 0 <= k < i && TableOf(indexes[k]) == t) &&
    (forall t :: t in r ==> r[t] == OnTable(indexes[..i], t))
  }

  /** One turn of `indexes_by_table`: the `i`th index joins its table's list. */
  method GroupNext(indexes: seq<Index>, i: nat, r: map<string, seq<Index>>) returns (r': map<string, seq<Index>>)
    requires i < |indexes| && forall k :: 0 <= k < |indexes| ==> Valid(indexes[k])
    requires Grouped(indexes, i, r)
    ensures Grouped(indexes, i + 1, r')
  {
    var t := TableOf(indexes[i]);
    r' := r;
    if t !in r' {
      assert OnTable(indexes[..i], t) == [] by { OnTableAbsent(indexes[..i], t); }
      r' := r'[t := []];
    }
    r' := r'[t := r'[t] + [indexes[i]]];
    forall u | u in r' ensures r'[u] == OnTable(indexes[..i + 1], u) {
      OnTableSnoc(indexes, i, u);
    }
  }

  /** The lists on the first `i + 1` indexes extend those on the first `i`. */
  lemma OnTableSnoc(indexes: seq<Index>, i: nat, t: string)
    requires i < |indexes| && forall k :: 0 <= k < |indexes| ==> Valid(indexes[k])
    ensures OnTable(indexes[..i + 1], t) ==
      OnTable(indexes[..i], t) + (if TableOf(indexes[i]) == t then [indexes[i]] else [])
  {
    assert indexes[..i + 1][..i] == indexes[..i];
  }

  lemma {:induction false} OnTableAbsent(indexes: seq<Index>, t: string)
    requires forall k :: 0 <= k < |indexes| ==> Valid(indexes[k])
    requires forall k :: 0 <= k < |indexes| ==> TableOf(indexes[k]) != t
    ensures OnTable(indexes, t) == []
  {
    if |indexes| > 0 { OnTableAbsent(indexes[..|indexes| - 1], t); }
  }

  /** Each index is in exactly its own table's list, as often as it occurs in the input. */
  lemma {:induction false} OnTablePartition(indexes: seq<Index>, x: Index)
    requires forall k :: 0 <= k < |indexes| ==> Valid(indexes[k])
    requires Valid(x)
    ensures multiset(OnTable(indexes, TableOf(x)))[x] == multiset(indexes)[x]
  {
    if |indexes| > 0 {
      var init := indexes[..|indexes| - 1];
      var last, t := indexes[|indexes| - 1], TableOf(x);
      OnTablePartition(init, x);
      var added := if TableOf(last) == t then [last] else [];
      assert OnTable(indexes, t) == OnTable(init, t) + added;
      CountSnoc(indexes, x);
      assert multiset(added)[x] == multiset([last])[x];
    }
  }

  /** How often `x` occurs in a non-empty sequence, counted from its last element. */
  lemma CountSnoc<T>(s: seq<T>, x: T)
    requires |s| > 0
    ensures multiset(s)[x] == multiset(s[..|s| - 1])[x] + multiset([s[|s| - 1]])[x]
  {
    assert s == s[..|s| - 1] + [s[|s| - 1]];
  }
}
