/** What a capture holds, table by table and column by column, read off the database's answers. */
module CaptureLaws {
  import opened Seqs
  import opened CompareSpec
  import opened CaptureSpec

  // ---- one table's statistics ----

  /** The first of the table's n column queries to fail, or n. */
  function FirstFailing(db: Answers, i: nat, n: nat): (f: nat)
    ensures f <= n
    ensures forall j :: 0 <= j < f ==> db.measure(i, j).Ok?
    ensures f < n ==> db.measure(i, f).Err?
  {
    if n == 0 then 0
    else
      var f := FirstFailing(db, i, n - 1);
      if f < n - 1 || db.measure(i, n - 1).Err? then f else n
  }

  predicate NamedBefore(cols: seq<ColumnSchema>, f: nat, c: string)
    requires f <= |cols|
  {
    exists j :: 0 <= j < f && cols[j].name == c
  }

  /** The j-th answer, with NULLs as what is left of the rows. */
  function Entry(db: Answers, i: nat, j: nat, rows: int): ColumnStats
    requires db.measure(i, j).Ok?
  {
    var m := db.measure(i, j).value;
    ColumnStats(m.nonNull, rows - m.nonNull, m.distinct, m.min, m.max)
  }

  /** The entries are the answers for the first f columns, the later of two with one name. */
  ghost predicate EntriesUpTo(db: Answers, i: nat, rows: int, cols: seq<ColumnSchema>, f: nat, entries: map<string, ColumnStats>)
    requires f <= |cols| && forall j :: 0 <= j < f ==> db.measure(i, j).Ok?
  {
    && (forall c :: c in entries <==> NamedBefore(cols, f, c))
    && (forall j :: 0 <= j < f && (forall l :: j < l < f ==> cols[l].name != cols[j].name) ==>
         cols[j].name in entries && entries[cols[j].name] == Entry(db, i, j, rows))
  }

  lemma {:induction false} MeasureKeeps(db: Answers, i: nat, key: string, rows: int, cols: seq<ColumnSchema>, k: nat)
    requires k <= |cols|
    ensures var s, f := Measure(db, i, key, rows, cols, k), FirstFailing(db, i, k);
            && s.table == key && s.rowCount == rows
            && s.skipped == (f < k)
            && s.skippedReason == (if f < k then ColumnFailed(cols[f].name, db.measure(i, f).error) else NotSkipped)
            && EntriesUpTo(db, i, rows, cols, f, s.columns)
    decreases k
  {
    hide EntriesUpTo;
    if k == 0 {
      EntriesNone(db, i, rows, cols);
    } else {
      MeasureKeeps(db, i, key, rows, cols, k - 1);
      if FirstFailing(db, i, k) == k {
        EntriesGrow(db, i, rows, cols, k, Measure(db, i, key, rows, cols, k - 1).columns);
      }
    }
  }

  lemma EntriesNone(db: Answers, i: nat, rows: int, cols: seq<ColumnSchema>)
    ensures EntriesUpTo(db, i, rows, cols, 0, map[])
  {
  }

  lemma EntriesGrow(db: Answers, i: nat, rows: int, cols: seq<ColumnSchema>, k: nat, entries: map<string, ColumnStats>)
    requires 0 < k <= |cols| && forall j :: 0 <= j < k ==> db.measure(i, j).Ok?
    requires EntriesUpTo(db, i, rows, cols, k - 1, entries)
    ensures EntriesUpTo(db, i, rows, cols, k, entries[cols[k - 1].name := Entry(db, i, k - 1, rows)])
  {
  }

  /** A table's statistics: none when the row count fails or is over the threshold (10 million unless the
      options say more than 0), else the columns' answers up to the first that fails; the reason says
      which of these it was. */
  lemma StatisticsLaw(o: Options, db: Answers, i: nat, key: string, cols: seq<ColumnSchema>)
    ensures var s := CaptureStatistics(o, db, i, key, cols);
            var limit := if o.largeTableThreshold > 0 then o.largeTableThreshold else 10_000_000;
            match db.rows(i)
            case Err(e) => s == TableStatistics(key, 0, map[], true, RowCountFailed(e))
            case Ok(n) =>
              if n > limit then s == TableStatistics(key, n, map[], true, LargeTable(n))
              else
                var f := FirstFailing(db, i, |cols|);
                && s.table == key && s.rowCount == n && EntriesUpTo(db, i, n, cols, f, s.columns)
                && if f == |cols| then !s.skipped && s.skippedReason == NotSkipped
                   else s.skipped && s.skippedReason == ColumnFailed(cols[f].name, db.measure(i, f).error)
  {
    hide EntriesUpTo, Measure;
    if db.rows(i).Ok? {
      MeasureKeeps(db, i, key, db.rows(i).value, cols, |cols|);
    }
  }

  // ---- the whole capture ----

  /** Table i is captured: an include list decides alone, else an exclude list, else every table is. */
  predicate Wanted(o: Options, name: string) {
    (o.includeTables != [] ==> name in o.includeTables)
    && (o.includeTables == [] ==> name !in o.excludeTables)
  }

  predicate SchemaFails(db: Answers, i: nat) {
    db.columns(i).Err? || db.indexes(i).Err?
  }

  /** Table i of the list is the last that the options want under this key. */
  ghost predicate Source(o: Options, refs: seq<TableRef>, k: nat, key: string, i: nat)
    requires k <= |refs|
  {
    && i < k && Wanted(o, refs[i].name) && refs[i].schema + "." + refs[i].name == key
    && forall j :: i < j < k && Wanted(o, refs[j].name) ==> refs[j].schema + "." + refs[j].name != key
  }

  ghost predicate Covered(o: Options, refs: seq<TableRef>, k: nat, key: string)
    requires k <= |refs|
  {
    exists i :: Source(o, refs, k, key, i)
  }

  /** Under key stands what the queries for table i answered. */
  ghost predicate StandsFor(o: Options, db: Answers, refs: seq<TableRef>, s: Snapshot, key: string, i: nat)
    requires i < |refs|
  {
    && db.columns(i).Ok? && db.indexes(i).Ok? && key in s.schema && key in s.statistics
    && s.schema[key] == TableSchema(refs[i].schema, refs[i].name, db.columns(i).value, db.indexes(i).value)
    && s.statistics[key] == CaptureStatistics(o, db, i, key, db.columns(i).value)
  }

  ghost predicate Failed(o: Options, db: Answers, refs: seq<TableRef>, k: nat, error: string)
    requires k <= |refs|
  {
    exists i :: 0 <= i < k && Wanted(o, refs[i].name) && FirstError(o, db, refs, i, error)
  }

  /** Table i's schema query is the first wanted one to fail, and this is its error. */
  ghost predicate FirstError(o: Options, db: Answers, refs: seq<TableRef>, i: nat, error: string)
    requires i < |refs|
  {
    && (if db.columns(i).Err? then error == db.columns(i).error
        else db.indexes(i).Err? && error == db.indexes(i).error)
    && forall j :: 0 <= j < i && Wanted(o, refs[j].name) ==> !SchemaFails(db, j)
  }

  ghost predicate TablesAre(o: Options, db: Answers, title: string, refs: seq<TableRef>, k: nat, s: Snapshot)
    requires k <= |refs|
  {
    && s.label_ == title
    && (forall i :: 0 <= i < k && Wanted(o, refs[i].name) ==> !SchemaFails(db, i))
    && (forall key :: key in s.schema <==> Covered(o, refs, k, key))
    && (forall key :: key in s.statistics <==> Covered(o, refs, k, key))
    && (forall key, i :: Source(o, refs, k, key, i) ==> StandsFor(o, db, refs, s, key, i))
  }

  lemma SourceSnoc(o: Options, refs: seq<TableRef>, k: nat, key: string, i: nat)
    requires k < |refs|
    ensures Source(o, refs, k + 1, key, i)
            <==> if Wanted(o, refs[k].name) && QualifiedName(refs[k]) == key then i == k else Source(o, refs, k, key, i)
    ensures Source(o, refs, k, key, i) ==> i < k
  {
  }

  lemma CoveredSnoc(o: Options, refs: seq<TableRef>, k: nat, key: string)
    requires k < |refs|
    ensures Covered(o, refs, k + 1, key)
            <==> Covered(o, refs, k, key) || (Wanted(o, refs[k].name) && QualifiedName(refs[k]) == key)
  {
    hide Source, Wanted, QualifiedName;
    var n := k + 1;
    if i :| Source(o, refs, k, key, i) {
      SourceSnoc(o, refs, k, key, i);
      SourceSnoc(o, refs, k, key, k);
      assert Source(o, refs, n, key, i) || Source(o, refs, n, key, k);
    }
    if i :| Source(o, refs, n, key, i) {
      SourceSnoc(o, refs, k, key, i);
    }
    SourceSnoc(o, refs, k, key, k);
    assert Wanted(o, refs[k].name) && QualifiedName(refs[k]) == key ==> Source(o, refs, n, key, k);
  }

  lemma {:induction false} TablesHold(o: Options, db: Answers, title: string, refs: seq<TableRef>, k: nat)
    requires k <= |refs|
    ensures match CaptureTables(o, db, title, refs, k)
            case Ok(s) => TablesAre(o, db, title, refs, k, s)
            case Err(e) => Failed(o, db, refs, k, e)
    decreases k
  {
    hide CaptureStatistics, FirstError, StandsFor, Source, TablesAre, Failed, Included, Wanted, CaptureSchema;
    if k == 0 {
      NoTables(o, db, title, refs);
    } else {
      var j := k - 1;
      TablesHold(o, db, title, refs, j);
      match CaptureTables(o, db, title, refs, j)
      case Err(e) => StillFailed(o, db, refs, j, e);
      case Ok(s) =>
        WantedIff(o, refs[j].name);
        if !Wanted(o, refs[j].name) {
          TableSkipped(o, db, title, refs, j, s);
        } else if SchemaFails(db, j) {
          TableFails(o, db, title, refs, j, s);
        } else {
          TableAdded(o, db, title, refs, j, s);
        }
    }
  }

  lemma NoTables(o: Options, db: Answers, title: string, refs: seq<TableRef>)
    ensures TablesAre(o, db, title, refs, 0, Snapshot(title, map[], map[]))
  {
  }

  lemma WantedIff(o: Options, name: string)
    ensures Included(o, name) <==> Wanted(o, name)
  {
  }

  lemma StillFailed(o: Options, db: Answers, refs: seq<TableRef>, k: nat, e: string)
    requires k < |refs| && Failed(o, db, refs, k, e)
    ensures Failed(o, db, refs, k + 1, e)
  {
    hide FirstError;
    var i :| 0 <= i < k && Wanted(o, refs[i].name) && FirstError(o, db, refs, i, e);
  }

  lemma TableFails(o: Options, db: Answers, title: string, refs: seq<TableRef>, k: nat, s: Snapshot)
    requires k < |refs| && TablesAre(o, db, title, refs, k, s)
    requires Wanted(o, refs[k].name) && SchemaFails(db, k)
    ensures CaptureSchema(db, k, refs[k]).Err?
    ensures Failed(o, db, refs, k + 1, CaptureSchema(db, k, refs[k]).error)
  {
    hide Covered, Source, StandsFor, Wanted;
    assert FirstError(o, db, refs, k, CaptureSchema(db, k, refs[k]).error);
  }

  lemma TableSkipped(o: Options, db: Answers, title: string, refs: seq<TableRef>, k: nat, s: Snapshot)
    requires k < |refs| && TablesAre(o, db, title, refs, k, s)
    requires !Wanted(o, refs[k].name)
    ensures TablesAre(o, db, title, refs, k + 1, s)
  {
    hide Covered, Source, StandsFor, Wanted, SchemaFails;
    forall key ensures Covered(o, refs, k + 1, key) <==> Covered(o, refs, k, key) {
      CoveredSnoc(o, refs, k, key);
    }
    forall key, i: nat | Source(o, refs, k + 1, key, i) ensures i < |refs| && StandsFor(o, db, refs, s, key, i) {
      SourceSnoc(o, refs, k, key, i);
    }
  }

  function WithTable(o: Options, db: Answers, refs: seq<TableRef>, i: nat, s: Snapshot): Snapshot
    requires i < |refs| && CaptureSchema(db, i, refs[i]).Ok?
  {
    var key, schema := QualifiedName(refs[i]), CaptureSchema(db, i, refs[i]).value;
    s.(schema := s.schema[key := schema],
       statistics := s.statistics[key := CaptureStatistics(o, db, i, key, schema.columns)])
  }

  lemma TableAdded(o: Options, db: Answers, title: string, refs: seq<TableRef>, k: nat, s: Snapshot)
    requires k < |refs| && TablesAre(o, db, title, refs, k, s)
    requires Wanted(o, refs[k].name) && !SchemaFails(db, k)
    ensures CaptureSchema(db, k, refs[k]).Ok?
    ensures TablesAre(o, db, title, refs, k + 1, WithTable(o, db, refs, k, s))
  {
    hide Covered, Source, StandsFor, Wanted, CaptureStatistics, QualifiedName;
    var n := WithTable(o, db, refs, k, s);
    forall key ensures key in n.schema <==> Covered(o, refs, k + 1, key) {
      CoveredSnoc(o, refs, k, key);
      assert key in s.schema <==> Covered(o, refs, k, key);
    }
    assert n.schema.Keys == n.statistics.Keys;
    forall key, i: nat | Source(o, refs, k + 1, key, i) ensures i < |refs| && StandsFor(o, db, refs, n, key, i) {
      TableStands(o, db, title, refs, k, s, key, i);
    }
  }

  lemma TableStands(o: Options, db: Answers, title: string, refs: seq<TableRef>, k: nat, s: Snapshot, key: string, i: nat)
    requires k < |refs| && TablesAre(o, db, title, refs, k, s)
    requires Wanted(o, refs[k].name) && !SchemaFails(db, k) && CaptureSchema(db, k, refs[k]).Ok?
    requires Source(o, refs, k + 1, key, i)
    ensures i < |refs| && StandsFor(o, db, refs, WithTable(o, db, refs, k, s), key, i)
  {
    SourceSnoc(o, refs, k, key, i);
    hide Covered, Source, Wanted, CaptureStatistics, QualifiedName;
    if key != QualifiedName(refs[k]) {
      assert StandsFor(o, db, refs, s, key, i);
    }
  }

  /** A capture succeeds exactly when the table list and every wanted table's columns and indexes can be
      read, and otherwise ends with the first error; it then holds, under "schema.table", what the queries
      for the last wanted table of that key answered, and nothing else. */
  lemma CaptureLaw(o: Options, db: Answers, title: string)
    ensures match Capture(o, db, title)
            case Err(e) =>
              if db.tables.Err? then e == db.tables.error else Failed(o, db, db.tables.value, |db.tables.value|, e)
            case Ok(s) =>
              db.tables.Ok? && TablesAre(o, db, title, db.tables.value, |db.tables.value|, s)
  {
    hide CaptureTables, TablesAre, Failed;
    if db.tables.Ok? {
      TablesHold(o, db, title, db.tables.value, |db.tables.value|);
    }
  }
}
