/**
 * The plain records of selection/workload.py that describe the database
 * schema: columns and tables. A column refers to its table by the table's
 * name, which is also what the column's text form prints.
 */
module Schema {
  import opened Common

  /** `Column(identifier, name, table)`; the identifier is not stored. */
  datatype Column = Column(name: string, table: string)

  datatype Table = Table(name: string, columns: seq<Column>)

  /** The constructor stores the column name lower-cased. */
  function NewColumn(identifier: int, name: string, table: Table): (c: Column)
    ensures IsLower(c.name) && |c.name| == |name|
    ensures c.table == table.name
  {
    Column(Lower(name), table.name)
  }

  /** The constructor stores the table name lower-cased and starts with no columns. */
  function NewTable(name: string): (t: Table)
    ensures IsLower(t.name) && |t.name| == |name|
    ensures t.columns == []
  {
    Table(Lower(name), [])
  }

  /** The text form `C <table>.<name>`. */
  function ColumnRepr(c: Column): string {
    "C " + c.table + "." + c.name
  }

  /** `Column.__lt__`: columns are ordered by name alone. */
  predicate ColumnLt(a: Column, b: Column) {
    StrLt(a.name, b.name)
  }

  /** The column order is a strict order that ignores tables: equal names are never ordered. */
  lemma ColumnLtByNameOnly(a: Column, b: Column)
    ensures a.name == b.name ==> !ColumnLt(a, b) && !ColumnLt(b, a)
    ensures ColumnLt(a, b) ==> !ColumnLt(b, a)
    ensures a.name != b.name ==> ColumnLt(a, b) || ColumnLt(b, a)
  {
    StrLeTotal(a.name, b.name);
    if StrLe(a.name, b.name) && StrLe(b.name, a.name) {
      StrLeAntisymmetric(a.name, b.name);
    }
  }
}
