/** Capturing a snapshot, with every database answer an input (internal/snapshot/capturer.go). */
module CaptureSpec {
  import opened Seqs
  import opened CompareSpec

  datatype Result<+T> = Ok(value: T) | Err(error: string)

  datatype TableRef = TableRef(schema: string, name: string)

  datatype Options = Options(largeTableThreshold: int, includeTables: seq<string>, excludeTables: seq<string>)

  /** One row of the per-column query. */
  datatype Measured = Measured(nonNull: int, distinct: int, min: string, max: string)

  /** What the database answers: the table list, and for the i-th table its columns, its row count and
      the j-th column's numbers. Every query is asked once, so nothing ties the answers together. */
  datatype Answers = Answers(
    tables: Result<seq<TableRef>>, columns: nat -> Result<seq<ColumnSchema>>, indexes: nat -> Result<seq<string>>,
    rows: nat -> Result<int>, measure: (nat, nat) -> Result<Measured>)

  const DEFAULT_LARGE_TABLE_THRESHOLD: int := 10_000_000

  function Threshold(o: Options): int {
    if o.largeTableThreshold > 0 then o.largeTableThreshold else DEFAULT_LARGE_TABLE_THRESHOLD
  }

  /** A list of tables to include wins over a list of tables to leave out. */
  predicate Included(o: Options, name: string) {
    if o.includeTables != [] then name in o.includeTables
    else if o.excludeTables != [] then name !in o.excludeTables
    else true
  }

  function QualifiedName(t: TableRef): string {
    t.schema + "." + t.name
  }

  function CaptureSchema(db: Answers, i: nat, t: TableRef): Result<TableSchema> {
    match db.columns(i)
    case Err(e) => Err(e)
    case Ok(cols) =>
      match db.indexes(i)
      case Err(e) => Err(e)
      case Ok(idx) => Ok(TableSchema(t.schema, t.name, cols, idx))
  }

  /** The statistics after the first k columns; the first failing column ends it and marks the table. */
  function Measure(db: Answers, i: nat, key: string, rows: int, cols: seq<ColumnSchema>, k: nat): TableStatistics
    requires k <= |cols|
  {
    if k == 0 then TableStatistics(key, rows, map[], false, NotSkipped)
    else
      var s := Measure(db, i, key, rows, cols, k - 1);
      var name := cols[k - 1].name;
      if s.skipped then s
      else
        match db.measure(i, k - 1)
        case Err(e) => s.(skipped := true, skippedReason := ColumnFailed(name, e))
        case Ok(m) =>
          s.(columns := s.columns[name := ColumnStats(m.nonNull, rows - m.nonNull, m.distinct, m.min, m.max)])
  }

  function CaptureStatistics(o: Options, db: Answers, i: nat, key: string, cols: seq<ColumnSchema>): TableStatistics {
    match db.rows(i)
    case Err(e) => TableStatistics(key, 0, map[], true, RowCountFailed(e))
    case Ok(rows) =>
      if rows > Threshold(o) then TableStatistics(key, rows, map[], true, LargeTable(rows))
      else Measure(db, i, key, rows, cols, |cols|)
  }

  /** The snapshot after the first k listed tables; a failing schema query ends the capture. */
  function CaptureTables(o: Options, db: Answers, title: string, refs: seq<TableRef>, k: nat): Result<Snapshot>
    requires k <= |refs|
  {
    if k == 0 then Ok(Snapshot(title, map[], map[]))
    else
      match CaptureTables(o, db, title, refs, k - 1)
      case Err(e) => Err(e)
      case Ok(s) =>
        var i := k - 1;
        var key := QualifiedName(refs[i]);
        if !Included(o, refs[i].name) then Ok(s)
        else
          match CaptureSchema(db, i, refs[i])
          case Err(e) => Err(e)
          case Ok(schema) =>
            Ok(s.(schema := s.schema[key := schema],
                  statistics := s.statistics[key := CaptureStatistics(o, db, i, key, schema.columns)]))
  }

  function Capture(o: Options, db: Answers, title: string): Result<Snapshot> {
    match db.tables
    case Err(e) => Err(e)
    case Ok(refs) => CaptureTables(o, db, title, refs, |refs|)
  }
}
