/** What both adapters share: the row type, the table record fixed at
    construction, and the projection of a listing into rows. */
module Rows {

  /** One output row: column name to text value. A column whose source
      field is absent has no key at all. */
  type Row = map<string, string>

  /** A table as the query engine sees it: a name and an ordered list of
      text columns, both fixed when the table is constructed. */
  datatype Table = Table(name: string, columns: seq<string>) {

    function Name(): string { name }

    function Columns(): seq<string> { columns }
  }

  /** No column is declared twice. */
  predicate Distinct(columns: seq<string>)
  {
    forall i, j :: 0 <= i < j < |columns| ==> columns[i] != columns[j]
  }

  /** Every key of the row is a declared column. */
  predicate WithinSchema(row: Row, columns: seq<string>)
  {
    forall k :: k in row ==> k in columns
  }

  /** One row per item, in list order: no item is dropped, duplicated or
      reordered. */
  function ProjectAll<T>(project: T -> Row, items: seq<T>): (rows: seq<Row>)
    ensures |rows| == |items|
    ensures forall i :: 0 <= i < |items| ==> rows[i] == project(items[i])
  {
    if |items| == 0 then []
    else [project(items[0])] + ProjectAll(project, items[1..])
  }
}
