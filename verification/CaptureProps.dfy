/** What a capture establishes, and what that gives a comparison of two captures. */
module CaptureProps {
  import opened Seqs
  import opened StringOrder
  import opened CompareSpec
  import opened CaptureSpec
  import CP = CompareProps

  predicate HasColumn(cols: seq<ColumnSchema>, name: string) {
    exists i :: 0 <= i < |cols| && cols[i].name == name
  }

  /** A table's statistics agree with its row count and its columns. */
  ghost predicate StatsOk(t: TableStatistics, cols: seq<ColumnSchema>) {
    && (forall c :: c in t.columns ==> t.columns[c].nullCount + t.columns[c].nonNullCount == t.rowCount)
    && (forall c :: c in t.columns ==> HasColumn(cols, c))
    && (!t.skipped ==> forall c :: HasColumn(cols, c) ==> c in t.columns)
  }

  ghost predicate WellCaptured(s: Snapshot) {
    && s.schema.Keys == s.statistics.Keys
    && forall t :: t in s.statistics ==>
         s.statistics[t].table == t && t in s.schema && StatsOk(s.statistics[t], s.schema[t].columns)
  }

  lemma HasColumnPrefix(cols: seq<ColumnSchema>, k: nat, name: string)
    requires k < |cols|
    ensures HasColumn(cols[..k + 1], name) <==> HasColumn(cols[..k], name) || cols[k].name == name
  {
    if HasColumn(cols[..k + 1], name) {
      var i :| 0 <= i < k + 1 && cols[..k + 1][i].name == name;
      assert i < k ==> cols[..k][i].name == name;
    }
    if HasColumn(cols[..k], name) {
      var i :| 0 <= i < k && cols[..k][i].name == name;
      assert cols[..k + 1][i].name == name;
    }
    if cols[k].name == name {
      assert cols[..k + 1][k].name == name;
    }
  }

  lemma {:induction false} MeasureOk(db: Answers, i: nat, key: string, rows: int, cols: seq<ColumnSchema>, k: nat)
    requires k <= |cols|
    ensures var s := Measure(db, i, key, rows, cols, k);
            && s.table == key && s.rowCount == rows && StatsOk(s, cols[..k])
            && (s.skipped <==> exists j :: 0 <= j < k && db.measure(i, j).Err?)
    decreases k
  {
    if k > 0 {
      MeasureOk(db, i, key, rows, cols, k - 1);
      hide HasColumn;
      forall c ensures HasColumn(cols[..k], c) <==> HasColumn(cols[..k - 1], c) || cols[k - 1].name == c {
        HasColumnPrefix(cols, k - 1, c);
      }
    } else {
      assert cols[..0] == [];
    }
  }

  /** A table's statistics are marked skipped exactly when the row count failed, the table is larger
      than the threshold, or a column query failed; otherwise every column of the table has an entry.
      Whatever entries there are, NULLs and non-NULLs add up to the row count. */
  lemma StatisticsOk(o: Options, db: Answers, i: nat, key: string, cols: seq<ColumnSchema>)
    ensures var s := CaptureStatistics(o, db, i, key, cols);
            && s.table == key && StatsOk(s, cols)
            && (s.skipped <==>
                  || db.rows(i).Err?
                  || db.rows(i).value > Threshold(o)
                  || exists j :: 0 <= j < |cols| && db.measure(i, j).Err?)
            && (db.rows(i).Ok? ==> s.rowCount == db.rows(i).value)
            && (s.skipped && (s.skippedReason.RowCountFailed? || s.skippedReason.LargeTable?) ==> s.columns == map[])
  {
    if db.rows(i).Ok? && db.rows(i).value <= Threshold(o) {
      MeasureOk(db, i, key, db.rows(i).value, cols, |cols|);
      MeasureReason(db, i, key, db.rows(i).value, cols, |cols|);
      assert cols[..|cols|] == cols;
    }
  }

  lemma {:induction false} MeasureReason(db: Answers, i: nat, key: string, rows: int, cols: seq<ColumnSchema>, k: nat)
    requires k <= |cols|
    ensures var s := Measure(db, i, key, rows, cols, k);
            s.skippedReason == NotSkipped || s.skippedReason.ColumnFailed?
    decreases k
  {
    if k > 0 {
      MeasureReason(db, i, key, rows, cols, k - 1);
    }
  }

  /** The entry of a column is its own query's answer, with NULLs as what is left of the row count; of
      two columns with one name the later counts. */
  lemma {:induction false} MeasureEntry(db: Answers, i: nat, key: string, rows: int, cols: seq<ColumnSchema>, k: nat, j: nat)
    requires j < k <= |cols| && !Measure(db, i, key, rows, cols, k).skipped
    requires forall l :: j < l < k ==> cols[l].name != cols[j].name
    ensures db.measure(i, j).Ok? && cols[j].name in Measure(db, i, key, rows, cols, k).columns
    ensures var m := db.measure(i, j).value;
            Measure(db, i, key, rows, cols, k).columns[cols[j].name]
            == ColumnStats(m.nonNull, rows - m.nonNull, m.distinct, m.min, m.max)
    decreases k
  {
    if j < k - 1 {
      MeasureEntry(db, i, key, rows, cols, k - 1, j);
    }
  }

  predicate Listed(o: Options, refs: seq<TableRef>, k: nat, key: string)
    requires k <= |refs|
  {
    exists i :: 0 <= i < k && Included(o, refs[i].name) && QualifiedName(refs[i]) == key
  }

  lemma {:induction false} TablesOk(o: Options, db: Answers, title: string, refs: seq<TableRef>, k: nat)
    requires k <= |refs|
    ensures var r := CaptureTables(o, db, title, refs, k);
            r.Ok? ==> WellCaptured(r.value) && forall t :: t in r.value.schema <==> Listed(o, refs, k, t)
    decreases k
  {
    hide CaptureStatistics, StatsOk, Included, QualifiedName;
    if k > 0 && CaptureTables(o, db, title, refs, k).Ok? {
      var i := k - 1;
      TablesOk(o, db, title, refs, i);
      var s, r := CaptureTables(o, db, title, refs, i).value, CaptureTables(o, db, title, refs, k).value;
      if Included(o, refs[i].name) {
        var schema := CaptureSchema(db, i, refs[i]).value;
        StatisticsOk(o, db, i, QualifiedName(refs[i]), schema.columns);
      }
      forall t ensures t in r.schema <==> Listed(o, refs, k, t) {
        if Listed(o, refs, i, t) {
          var j :| 0 <= j < i && Included(o, refs[j].name) && QualifiedName(refs[j]) == t;
          assert 0 <= j < k;
        }
      }
    }
  }

  /** A successful capture covers exactly the listed tables that the options include, in both the
      schema and the statistics, and its statistics are well formed. */
  lemma CaptureIsWell(o: Options, db: Answers, title: string)
    ensures var r := Capture(o, db, title);
            r.Ok? ==>
              && db.tables.Ok? && WellCaptured(r.value)
              && r.value.schema.Keys == r.value.statistics.Keys
              && forall t :: t in r.value.schema <==> Listed(o, db.tables.value, |db.tables.value|, t)
  {
    hide WellCaptured, Listed;
    if db.tables.Ok? {
      TablesOk(o, db, title, db.tables.value, |db.tables.value|);
      if Capture(o, db, title).Ok? {
        SameKeys(Capture(o, db, title).value);
      }
    }
  }

  lemma SameKeys(s: Snapshot)
    requires WellCaptured(s)
    ensures s.schema.Keys == s.statistics.Keys
  {
  }

  // ---- comparing captures ----

  lemma {:induction false} StatsChangesAreDiffs(names: seq<string>, a: map<string, ColumnStats>, b: map<string, ColumnStats>)
    ensures forall d :: d in StatsChanges(names, a, b) ==> StatsDiff(d.column, a, b) == Some(d)
    decreases |names|
  {
    if names != [] {
      StatsChangesAreDiffs(names[..|names| - 1], a, b);
    }
  }

  /** The drifts of an entry add up: the changes in NULLs and in non-NULLs are together the change in
      rows. */
  ghost predicate Balanced(t: DataChange) {
    forall j :: 0 <= j < |t.columns| ==>
      (t.columns[j].nullTo - t.columns[j].nullFrom) + (t.columns[j].nonNullTo - t.columns[j].nonNullFrom)
      == t.rowCountTo - t.rowCountFrom
  }

  lemma EntryBalanced(n: string, a: Snapshot, b: Snapshot)
    requires WellCaptured(a) && WellCaptured(b) && (n in a.statistics || n in b.statistics)
    ensures Balanced(DataDiff(n, a.statistics, b.statistics))
  {
    hide SortedOf, HasColumn, StatsChanges;
    var x, y := a.statistics, b.statistics;
    var t := DataDiff(n, x, y);
    if t.columns != [] {
      StatsChangesAreDiffs(SortedOf(x[n].columns.Keys + y[n].columns.Keys), x[n].columns, y[n].columns);
      forall j | 0 <= j < |t.columns| ensures StatsDiff(t.columns[j].column, x[n].columns, y[n].columns) == Some(t.columns[j]) {
        assert t.columns[j] in t.columns;
      }
      assert StatsOk(x[n], a.schema[n].columns) && StatsOk(y[n], b.schema[n].columns);
    }
  }

  /** Every drift reported between two captures adds up. */
  lemma DriftAddsUp(a: Snapshot, b: Snapshot)
    requires WellCaptured(a) && WellCaptured(b)
    ensures var ds := Compare(a, b).dataChanges;
            forall i, j :: 0 <= i < |ds| && 0 <= j < |ds[i].columns| ==>
              var d := ds[i].columns[j];
              (d.nullTo - d.nullFrom) + (d.nonNullTo - d.nonNullFrom) == ds[i].rowCountTo - ds[i].rowCountFrom
  {
    hide SortedOf, DataDiff, WellCaptured, CompareSchema;
    var ds := Compare(a, b).dataChanges;
    var names := SortedOf(a.statistics.Keys + b.statistics.Keys);
    forall i | 0 <= i < |ds| ensures Balanced(ds[i]) {
      EntryBalanced(names[i], a, b);
    }
  }

  ghost predicate Noted(ds: seq<DataChange>, t: string, note: Note) {
    exists i :: 0 <= i < |ds| && ds[i].table == t && ds[i].note == note
  }

  lemma DataSays(a: map<string, TableStatistics>, b: map<string, TableStatistics>, t: string)
    ensures Noted(CompareStatistics(a, b), t, NewTable) <==> t !in a && t in b
    ensures Noted(CompareStatistics(a, b), t, TableGone) <==> t in a && t !in b
  {
    hide CompareColumnStats, SortedOf, DataChanges, Less;
    var names := SortedOf(a.Keys + b.Keys);
    var ds := CompareStatistics(a, b);
    if t in a || t in b {
      assert t in names;
      var k :| 0 <= k < |names| && names[k] == t;
      assert ds[k] == DataDiff(t, a, b);
    }
    forall i | 0 <= i < |ds| && ds[i].table == t ensures (t in a || t in b) && ds[i] == DataDiff(t, a, b) {
      assert ds[i] == DataDiff(names[i], a, b);
    }
  }

  /** The data report says "new" or "removed" of exactly the tables that the schema report adds or
      removes. */
  lemma TablesAgree(a: Snapshot, b: Snapshot, t: string)
    requires WellCaptured(a) && WellCaptured(b)
    ensures var r := Compare(a, b);
            && (Noted(r.dataChanges, t, NewTable) <==> SchemaChange(Added, t, "", TableAdded, false) in r.schemaChanges)
            && (Noted(r.dataChanges, t, TableGone) <==> SchemaChange(Removed, t, "", TableRemoved, true) in r.schemaChanges)
  {
    hide CompareSchema, CompareStatistics, Noted, StatsOk;
    SchemaSays(a.schema, b.schema, t);
    DataSays(a.statistics, b.statistics, t);
    assert t in a.schema.Keys <==> t in a.statistics.Keys;
    assert t in b.schema.Keys <==> t in b.statistics.Keys;
  }

  lemma SchemaSays(a: SchemaState, b: SchemaState, t: string)
    ensures SchemaChange(Added, t, "", TableAdded, false) in CompareSchema(a, b) <==> t !in a && t in b
    ensures SchemaChange(Removed, t, "", TableRemoved, true) in CompareSchema(a, b) <==> t in a && t !in b
  {
    CP.CanonicalForm(a, b);
    hide CompareSchema, IndexColumns;
    var cs := CompareSchema(a, b);
    var added, removed := SchemaChange(Added, t, "", TableAdded, false), SchemaChange(Removed, t, "", TableRemoved, true);
    assert CP.DiffAt(a, b, t, "") == Some(added) <==> t !in a && t in b;
    assert CP.DiffAt(a, b, t, "") == Some(removed) <==> t in a && t !in b;
    if added in cs {
      var i :| 0 <= i < |cs| && cs[i] == added;
    }
    if removed in cs {
      var i :| 0 <= i < |cs| && cs[i] == removed;
    }
  }
}
