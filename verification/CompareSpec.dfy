/** Snapshots and what comparing two of them reports (internal/snapshot/types.go,
    internal/snapshot/comparator.go). A change's detail is kept as a value instead of its wording. */
module CompareSpec {
  import opened Seqs
  import opened StringOrder

  datatype ColumnSchema = ColumnSchema(name: string, dataType: string, nullable: bool, default_: string, position: int)

  datatype TableSchema = TableSchema(schema: string, name: string, columns: seq<ColumnSchema>, indexes: seq<string>)

  type SchemaState = map<string, TableSchema>

  datatype ColumnStats = ColumnStats(nonNullCount: int, nullCount: int, distinctCount: int, min: string, max: string)

  /** Why a table's column statistics are missing or incomplete. */
  datatype Reason = NotSkipped | RowCountFailed(error: string) | LargeTable(rows: int) | ColumnFailed(column: string, error: string)

  datatype TableStatistics = TableStatistics(
    table: string, rowCount: int, columns: map<string, ColumnStats>, skipped: bool, skippedReason: Reason)

  datatype Snapshot = Snapshot(label_: string, schema: SchemaState, statistics: map<string, TableStatistics>)

  datatype Kind = Added | Removed | Modified

  datatype Detail =
    | TableAdded | TableRemoved
    | ColumnAdded(dataType: string, nullable: bool) | ColumnRemoved
    | TypeChanged(typeFrom: string, typeTo: string)
    | NullTightened | NullLoosened
    | DefaultChanged(defaultFrom: string, defaultTo: string)

  /** The column is empty when the change is the table's. */
  datatype SchemaChange = SchemaChange(kind: Kind, table: string, column: string, detail: Detail, breaking: bool)

  datatype Note = NoNote | NewTable | TableGone | StatisticsSkipped

  datatype ColumnDataChange = ColumnDataChange(
    column: string, nullFrom: int, nullTo: int, nonNullFrom: int, nonNullTo: int,
    distinctFrom: int, distinctTo: int, notable: bool)

  datatype DataChange = DataChange(
    table: string, rowCountFrom: int, rowCountTo: int, columns: seq<ColumnDataChange>, note: Note)

  datatype Report = Report(fromLabel: string, toLabel: string, schemaChanges: seq<SchemaChange>, dataChanges: seq<DataChange>)

  // ---- schemas ----

  /** Columns by name; of two columns with one name the later counts. */
  function IndexColumns(cols: seq<ColumnSchema>): (m: map<string, ColumnSchema>)
    ensures forall n :: n in m ==> m[n].name == n
  {
    if cols == [] then map[]
    else
      var k := |cols| - 1;
      IndexColumns(cols[..k])[cols[k].name := cols[k]]
  }

  /** The first difference between two columns of the same name, in the comparator's order. */
  function DiffColumn(table: string, a: ColumnSchema, b: ColumnSchema): Option<SchemaChange> {
    if a.dataType != b.dataType then
      Some(SchemaChange(Modified, table, b.name, TypeChanged(a.dataType, b.dataType), true))
    else if a.nullable && !b.nullable then
      Some(SchemaChange(Modified, table, b.name, NullTightened, true))
    else if !a.nullable && b.nullable then
      Some(SchemaChange(Modified, table, b.name, NullLoosened, false))
    else if a.default_ != b.default_ then
      Some(SchemaChange(Modified, table, b.name, DefaultChanged(a.default_, b.default_), false))
    else None
  }

  function ColumnDiff(table: string, name: string, a: map<string, ColumnSchema>, b: map<string, ColumnSchema>): Option<SchemaChange> {
    if name in a && name in b then DiffColumn(table, a[name], b[name])
    else if name in b then
      Some(SchemaChange(Added, table, name, ColumnAdded(b[name].dataType, b[name].nullable), false))
    else if name in a then Some(SchemaChange(Removed, table, name, ColumnRemoved, true))
    else None
  }

  function Listed<T>(x: Option<T>): seq<T> {
    if x.Some? then [x.value] else []
  }

  function ColumnChanges(table: string, names: seq<string>, a: map<string, ColumnSchema>, b: map<string, ColumnSchema>)
    : seq<SchemaChange>
  {
    if names == [] then []
    else
      var k := |names| - 1;
      ColumnChanges(table, names[..k], a, b) + Listed(ColumnDiff(table, names[k], a, b))
  }

  ghost function CompareColumns(table: string, a: TableSchema, b: TableSchema): seq<SchemaChange> {
    var x, y := IndexColumns(a.columns), IndexColumns(b.columns);
    ColumnChanges(table, SortedOf(x.Keys + y.Keys), x, y)
  }

  ghost function TableDiff(name: string, a: SchemaState, b: SchemaState): seq<SchemaChange> {
    if name in a && name in b then CompareColumns(name, a[name], b[name])
    else if name in b then [SchemaChange(Added, name, "", TableAdded, false)]
    else if name in a then [SchemaChange(Removed, name, "", TableRemoved, true)]
    else []
  }

  ghost function TableChanges(names: seq<string>, a: SchemaState, b: SchemaState): seq<SchemaChange> {
    if names == [] then []
    else
      var k := |names| - 1;
      TableChanges(names[..k], a, b) + TableDiff(names[k], a, b)
  }

  ghost function CompareSchema(a: SchemaState, b: SchemaState): seq<SchemaChange> {
    TableChanges(SortedOf(a.Keys + b.Keys), a, b)
  }

  function BreakingCount(cs: seq<SchemaChange>): nat {
    if cs == [] then 0
    else
      var k := |cs| - 1;
      BreakingCount(cs[..k]) + if cs[k].breaking then 1 else 0
  }

  // ---- statistics ----

  /** The drift of one column, reported only when both sides have it and differ. */
  function StatsDiff(name: string, a: map<string, ColumnStats>, b: map<string, ColumnStats>): Option<ColumnDataChange> {
    if name in a && name in b && a[name] != b[name] then
      var x, y := a[name], b[name];
      Some(ColumnDataChange(name, x.nullCount, y.nullCount, x.nonNullCount, y.nonNullCount,
                            x.distinctCount, y.distinctCount, 0 < x.nullCount && y.nullCount < x.nullCount))
    else None
  }

  function StatsChanges(names: seq<string>, a: map<string, ColumnStats>, b: map<string, ColumnStats>): seq<ColumnDataChange> {
    if names == [] then []
    else
      var k := |names| - 1;
      StatsChanges(names[..k], a, b) + Listed(StatsDiff(names[k], a, b))
  }

  ghost function CompareColumnStats(a: TableStatistics, b: TableStatistics): seq<ColumnDataChange> {
    StatsChanges(SortedOf(a.columns.Keys + b.columns.Keys), a.columns, b.columns)
  }

  ghost function DataDiff(name: string, a: map<string, TableStatistics>, b: map<string, TableStatistics>): DataChange
    requires name in a || name in b
  {
    if name !in a then DataChange(name, 0, b[name].rowCount, [], NewTable)
    else if name !in b then DataChange(name, a[name].rowCount, 0, [], TableGone)
    else if a[name].skipped || b[name].skipped then
      DataChange(name, a[name].rowCount, b[name].rowCount, [], StatisticsSkipped)
    else DataChange(name, a[name].rowCount, b[name].rowCount, CompareColumnStats(a[name], b[name]), NoNote)
  }

  ghost function DataChanges(names: seq<string>, a: map<string, TableStatistics>, b: map<string, TableStatistics>): (r: seq<DataChange>)
    requires forall i :: 0 <= i < |names| ==> names[i] in a || names[i] in b
    ensures |r| == |names|
    ensures forall i :: 0 <= i < |names| ==> r[i] == DataDiff(names[i], a, b)
  {
    if names == [] then []
    else
      var k := |names| - 1;
      DataChanges(names[..k], a, b) + [DataDiff(names[k], a, b)]
  }

  ghost function CompareStatistics(a: map<string, TableStatistics>, b: map<string, TableStatistics>): seq<DataChange> {
    DataChanges(SortedOf(a.Keys + b.Keys), a, b)
  }

  ghost function Compare(a: Snapshot, b: Snapshot): Report {
    Report(a.label_, b.label_, CompareSchema(a.schema, b.schema), CompareStatistics(a.statistics, b.statistics))
  }

  function NotableIn(cs: seq<ColumnDataChange>): nat {
    if cs == [] then 0
    else
      var k := |cs| - 1;
      NotableIn(cs[..k]) + if cs[k].notable then 1 else 0
  }

  function NotableDataCount(ds: seq<DataChange>): nat {
    if ds == [] then 0
    else
      var k := |ds| - 1;
      NotableDataCount(ds[..k]) + NotableIn(ds[k].columns)
  }
}
