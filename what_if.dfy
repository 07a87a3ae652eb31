/**
 * selection/what_if_index_creation.py: the bookkeeping of hypothetical
 * indexes. `simulated_indexes` is an insertion-ordered dict from oid to
 * hypopg name; it is modelled by its key order `keys` and its contents
 * `names`.
 */
module WhatIf {
  import opened Common
  import opened Indexes
  import opened Database

  function DropStatements(oids: seq<nat>): (r: seq<string>)
    ensures |r| == |oids|
    ensures forall k :: 0 <= k < |oids| ==> r[k] == DropStatement(oids[k])
  {
    seq(|oids|, k requires 0 <= k < |oids| => DropStatement(oids[k]))
  }

  class WhatIfIndexCreation {
    const connector: Connector
    var keys: seq<nat>
    var names: map<nat, string>

    ghost predicate Valid()
      reads this, connector
    {
      connector.Valid() && Distinct(keys) &&
      (forall k :: k in names <==> k in keys) &&
      (forall k :: k in keys ==> k < connector.nextOid)
    }

    constructor (connector: Connector)
      requires connector.Valid()
      ensures Valid() && this.connector == connector
      ensures keys == [] && names == map[]
    {
      this.connector := connector;
      keys := [];
      names := map[];
    }

    /**
     * `simulate_index`: the oid the database returns is mapped to the name it
     * returns, the index object is stamped with both, and with `storeSize`
     * its estimated size is fetched; otherwise the size slot is untouched.
     */
    method SimulateIndex(ix: IndexObject, storeSize: bool) returns (oid: nat, name: string)
      requires Valid()
      modifies this`keys, this`names, ix, connector
      ensures Valid()
      ensures oid !in old(names) && names == old(names)[oid := name] && keys == old(keys) + [oid]
      ensures oid !in old(connector.hypothetical)
      ensures oid == old(connector.nextOid) && connector.nextOid == oid + 1
      ensures connector.hypothetical == old(connector.hypothetical)[oid := ix.index]
      ensures name == connector.nameOf(oid, ix.index)
      ensures ix.hypopgName == Some(name) && ix.hypopgOid == Some(oid)
      ensures storeSize ==> ix.estimatedSize == Some(connector.sizeOf(ix.index))
      ensures storeSize ==> connector.statements == old(connector.statements) + [SizeStatement(oid)]
      ensures !storeSize ==> ix.estimatedSize == old(ix.estimatedSize)
      ensures !storeSize ==> connector.statements == old(connector.statements)
      ensures connector.asked == old(connector.asked) && connector.planned == old(connector.planned)
    {
      oid, name := connector.SimulateIndex(ix.index);
      names := names[oid := name];
      keys := keys + [oid];
      ix.hypopgName := Some(name);
      ix.hypopgOid := Some(oid);
      if storeSize {
        StoreEstimatedSize(ix, oid);
      }
    }

    /** `store_estimated_size`: the first field of the size query's row. */
    method StoreEstimatedSize(ix: IndexObject, oid: nat)
      requires Valid() && oid in connector.hypothetical
      modifies ix`estimatedSize, connector`statements
      ensures Valid()
      ensures ix.estimatedSize == Some(connector.sizeOf(connector.hypothetical[oid]))
      ensures connector.statements == old(connector.statements) + [SizeStatement(oid)]
    {
      var row := connector.ExecFetchSize(oid);
      ix.estimatedSize := Some(row[0]);
    }

    /** `_drop_index_by_id`: one drop statement for the oid. */
    method DropIndexById(oid: nat)
      requires Valid()
      modifies connector`hypothetical, connector`statements
      ensures Valid()
      ensures connector.statements == old(connector.statements) + [DropStatement(oid)]
      ensures connector.hypothetical == old(connector.hypothetical) - {oid}
    {
      connector.ExecOnly(DropStatement(oid));
      WithoutDroppedIsRemoval(old(connector.hypothetical), oid);
    }

    /**
     * `drop_simulated_index`: an index that was never simulated has no oid
     * (AttributeError); an oid that is not tracked fails the `del`
     * (KeyError). Otherwise exactly that entry goes and one drop is issued.
     */
    method DropSimulatedIndex(ix: IndexObject) returns (r: Result<()>)
      requires Valid()
      modifies this`keys, this`names, connector`hypothetical, connector`statements
      ensures Valid()
      ensures ix.hypopgOid.None? ==> r == Err("AttributeError")
      ensures ix.hypopgOid.Some? && ix.hypopgOid.value !in old(names) ==> r == Err("KeyError")
      ensures r.Err? ==>
        keys == old(keys) && names == old(names) &&
        connector.statements == old(connector.statements) && connector.hypothetical == old(connector.hypothetical)
      ensures r.Ok? <==> ix.hypopgOid.Some? && ix.hypopgOid.value in old(names)
      ensures r.Ok? ==>
        var oid := ix.hypopgOid.value;
        names == old(names) - {oid} && keys == Without<nat>(old(keys), oid) &&
        connector.statements == old(connector.statements) + [DropStatement(oid)] &&
        connector.hypothetical == old(connector.hypothetical) - {oid}
    {
      if ix.hypopgOid.None? {
        return Err("AttributeError");
      }
      var oid := ix.hypopgOid.value;
      if oid !in names {
        return Err("KeyError");
      }
      names := names - {oid};
      keys := Without<nat>(keys, oid);
      DropIndexById(oid);
      r := Ok(());
    }

    /**
     * `drop_all_simulated_indexes`: one drop per tracked oid, in insertion
     * order, then an empty map; nothing is issued when the map is empty.
     */
    method DropAllSimulatedIndexes()
      requires Valid()
      modifies this`keys, this`names, connector`hypothetical, connector`statements
      ensures Valid()
      ensures connector.statements == old(connector.statements) + DropStatements(old(keys))
      ensures connector.hypothetical == old(connector.hypothetical) - SetOf(old(keys))
      ensures keys == [] && names == map[]
    {
      var i := 0;
      while i < |keys|
        invariant 0 <= i <= |keys| && Valid()
        invariant keys == old(keys) && names == old(names)
        invariant connector.statements == old(connector.statements) + DropStatements(keys[..i])
        invariant connector.hypothetical == old(connector.hypothetical) - SetOf(keys[..i])
      {
        DropIndexById(keys[i]);
        assert DropStatements(keys[..i + 1]) == DropStatements(keys[..i]) + [DropStatement(keys[i])];
        assert SetOf(keys[..i + 1]) == SetOf(keys[..i]) + {keys[i]} by {
          assert keys[..i + 1] == keys[..i] + [keys[i]];
        }
        i := i + 1;
      }
      assert keys[..i] == keys;
      keys := [];
      names := map[];
    }
  }
}
