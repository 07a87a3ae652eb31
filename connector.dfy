/**
 * The database connector, replaced by an oracle. The real connector talks to
 * PostgreSQL/hypopg; here it keeps the map of hypothetical indexes the
 * database holds, a log of the statements it was sent and of the queries it
 * was asked to cost, and answers from three fixed functions: the optimiser's
 * cost of a query under a set of hypothetical indexes, the plan text under a
 * set of hypothetical indexes, and the estimated size of an index.
 */
module Database {
  import opened Common
  import opened Indexes
  import opened Workloads

  /** `select * from hypopg_drop_index(<oid>)`. */
  function DropStatement(oid: nat): string {
    "select * from hypopg_drop_index(" + NatToString(oid) + ")"
  }

  /** `select hypopg_relation_size(<oid>)`. */
  function SizeStatement(oid: nat): string {
    "select hypopg_relation_size(" + NatToString(oid) + ")"
  }

  lemma NatToStringInjective(a: nat, b: nat)
    requires NatToString(a) == NatToString(b)
    ensures a == b
  {
    ParseIntOfNat(a);
    ParseIntOfNat(b);
  }

  /** Different oids give different drop statements. */
  lemma DropStatementInjective(a: nat, b: nat)
    requires DropStatement(a) == DropStatement(b)
    ensures a == b
  {
    var p := "select * from hypopg_drop_index(";
    var sa, sb := DropStatement(a), DropStatement(b);
    assert sa[|p|..|sa| - 1] == NatToString(a);
    assert sb[|p|..|sb| - 1] == NatToString(b);
    NatToStringInjective(a, b);
  }

  /** Different oids give different size statements. */
  lemma SizeStatementInjective(a: nat, b: nat)
    requires SizeStatement(a) == SizeStatement(b)
    ensures a == b
  {
    var p := "select hypopg_relation_size(";
    var sa, sb := SizeStatement(a), SizeStatement(b);
    assert sa[|p|..|sa| - 1] == NatToString(a);
    assert sb[|p|..|sb| - 1] == NatToString(b);
    NatToStringInjective(a, b);
  }

  /** The map without the entries whose drop statement is `statement`. */
  function WithoutDropped(m: map<nat, Index>, statement: string): map<nat, Index> {
    map k | k in m && DropStatement(k) != statement :: m[k]
  }

  lemma WithoutDroppedIsRemoval(m: map<nat, Index>, oid: nat)
    ensures WithoutDropped(m, DropStatement(oid)) == m - {oid}
  {
    forall k | k in m && DropStatement(k) == DropStatement(oid) ensures k == oid {
      DropStatementInjective(k, oid);
    }
  }

  class Connector {
    /** The optimiser's estimated cost of a query given the hypothetical indexes. */
    const cost: (Query, set<Index>) -> real
    /** The plan text of a query given the hypothetical indexes by oid. */
    const plan: (Query, map<nat, Index>) -> string
    /** hypopg's estimated size of an index. */
    const sizeOf: Index -> nat
    /** hypopg's name for the index it creates under an oid. */
    const nameOf: (nat, Index) -> string

    var nextOid: nat
    var hypothetical: map<nat, Index>
    var statements: seq<string>
    var asked: seq<Query>
    var planned: seq<Query>

    ghost predicate Valid()
      reads this
    {
      forall k :: k in hypothetical ==> k < nextOid
    }

    constructor (cost: (Query, set<Index>) -> real, plan: (Query, map<nat, Index>) -> string,
                 sizeOf: Index -> nat, nameOf: (nat, Index) -> string)
      ensures Valid()
      ensures this.cost == cost && this.plan == plan && this.sizeOf == sizeOf && this.nameOf == nameOf
      ensures hypothetical == map[] && statements == [] && asked == [] && planned == []
    {
      this.cost := cost;
      this.plan := plan;
      this.sizeOf := sizeOf;
      this.nameOf := nameOf;
      nextOid := 1;
      hypothetical := map[];
      statements := [];
      asked := [];
      planned := [];
    }

    /** `simulate_index`: hypopg creates the index under a fresh oid. */
    method SimulateIndex(ix: Index) returns (oid: nat, name: string)
      requires Valid()
      modifies this`nextOid, this`hypothetical
      ensures Valid()
      ensures oid == old(nextOid) && nextOid == old(nextOid) + 1
      ensures oid !in old(hypothetical)
      ensures hypothetical == old(hypothetical)[oid := ix]
      ensures name == nameOf(oid, ix)
    {
      oid := nextOid;
      nextOid := nextOid + 1;
      hypothetical := hypothetical[oid := ix];
      name := nameOf(oid, ix);
    }

    /** `exec_only`: a drop statement removes the hypothetical index it names. */
    method ExecOnly(statement: string)
      requires Valid()
      modifies this`hypothetical, this`statements
      ensures Valid()
      ensures statements == old(statements) + [statement]
      ensures hypothetical == WithoutDropped(old(hypothetical), statement)
    {
      statements := statements + [statement];
      hypothetical := WithoutDropped(hypothetical, statement);
    }

    /** `exec_fetch` of a size statement: the row holds the estimated size. */
    method ExecFetchSize(oid: nat) returns (row: seq<nat>)
      requires Valid() && oid in hypothetical
      modifies this`statements
      ensures statements == old(statements) + [SizeStatement(oid)]
      ensures row == [sizeOf(hypothetical[oid])]
    {
      statements := statements + [SizeStatement(oid)];
      row := [sizeOf(hypothetical[oid])];
    }

    /** `get_cost`: the optimiser's estimate under the current hypothetical indexes. */
    method GetCost(q: Query) returns (c: real)
      modifies this`asked
      ensures asked == old(asked) + [q]
      ensures c == cost(q, hypothetical.Values)
    {
      asked := asked + [q];
      c := cost(q, hypothetical.Values);
    }

    /**
     * `get_plan`: the plan under the current hypothetical indexes, as its
     * text and its "Total Cost", which is the optimiser's estimate.
     */
    method GetPlan(q: Query) returns (text: string, totalCost: real)
      modifies this`planned
      ensures planned == old(planned) + [q]
      ensures text == plan(q, hypothetical) && totalCost == cost(q, hypothetical.Values)
    {
      planned := planned + [q];
      text := plan(q, hypothetical);
      totalCost := cost(q, hypothetical.Values);
    }
  }
}
