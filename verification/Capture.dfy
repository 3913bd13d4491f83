/** The capturer as internal/snapshot/capturer.go writes it, proved against CaptureSpec. */
module Capturer {
  import opened Seqs
  import opened CompareSpec
  import opened Spec = CaptureSpec

  method Contains(list: seq<string>, want: string) returns (found: bool)
    ensures found <==> want in list
  {
    for i := 0 to |list|
      invariant want !in list[..i]
    {
      if list[i] == want {
        return true;
      }
    }
    return false;
  }

  method Included(o: Options, table: string) returns (ok: bool)
    ensures ok <==> Spec.Included(o, table)
    ensures o.includeTables != [] ==> (ok <==> table in o.includeTables)
    ensures o.includeTables == [] ==> (ok <==> table !in o.excludeTables)
  {
    if |o.includeTables| > 0 {
      ok := Contains(o.includeTables, table);
    } else if |o.excludeTables| > 0 {
      var out := Contains(o.excludeTables, table);
      ok := !out;
    } else {
      ok := true;
    }
  }

  method CaptureStatistics(o: Options, db: Answers, i: nat, key: string, cols: seq<ColumnSchema>)
    returns (stats: TableStatistics)
    ensures stats == Spec.CaptureStatistics(o, db, i, key, cols)
  {
    stats := TableStatistics(key, 0, map[], false, NotSkipped);
    var rowCount := db.rows(i);
    if rowCount.Err? {
      return stats.(skipped := true, skippedReason := RowCountFailed(rowCount.error));
    }
    stats := stats.(rowCount := rowCount.value);
    if rowCount.value > Threshold(o) {
      return stats.(skipped := true, skippedReason := LargeTable(rowCount.value));
    }
    for j := 0 to |cols|
      invariant stats == Measure(db, i, key, rowCount.value, cols, j) && !stats.skipped
    {
      var cs := db.measure(i, j);
      if cs.Err? {
        stats := stats.(skipped := true, skippedReason := ColumnFailed(cols[j].name, cs.error));
        MeasureStops(db, i, key, rowCount.value, cols, j + 1, |cols|);
        return;
      }
      var nonNull := cs.value.nonNull;
      stats := stats.(columns := stats.columns[cols[j].name :=
        ColumnStats(nonNull, rowCount.value - nonNull, cs.value.distinct, cs.value.min, cs.value.max)]);
    }
  }

  /** Once a column has failed the later ones change nothing. */
  lemma {:induction false} MeasureStops(db: Answers, i: nat, key: string, rows: int, cols: seq<ColumnSchema>, j: nat, k: nat)
    requires j <= k <= |cols| && Measure(db, i, key, rows, cols, j).skipped
    ensures Measure(db, i, key, rows, cols, k) == Measure(db, i, key, rows, cols, j)
    decreases k
  {
    if j < k {
      MeasureStops(db, i, key, rows, cols, j, k - 1);
    }
  }

  method Capture(o: Options, db: Answers, title: string) returns (r: Result<Snapshot>)
    ensures r == Spec.Capture(o, db, title)
  {
    hide Measure, Spec.CaptureStatistics;
    var tables := db.tables;
    if tables.Err? {
      return Err(tables.error);
    }
    var refs := tables.value;
    var snap := Snapshot(title, map[], map[]);
    for i := 0 to |refs|
      invariant CaptureTables(o, db, title, refs, i) == Ok(snap)
    {
      var included := Included(o, refs[i].name);
      if !included {
        continue;
      }
      var key := QualifiedName(refs[i]);
      var schema := CaptureSchema(db, i, refs[i]);
      if schema.Err? {
        CaptureStops(o, db, title, refs, i + 1, |refs|);
        return Err(schema.error);
      }
      var stats := CaptureStatistics(o, db, i, key, schema.value.columns);
      snap := snap.(schema := snap.schema[key := schema.value], statistics := snap.statistics[key := stats]);
    }
    r := Ok(snap);
  }

  /** The first failing schema query decides the capture's error. */
  lemma {:induction false} CaptureStops(o: Options, db: Answers, title: string, refs: seq<TableRef>, j: nat, k: nat)
    requires j <= k <= |refs| && CaptureTables(o, db, title, refs, j).Err?
    ensures CaptureTables(o, db, title, refs, k) == CaptureTables(o, db, title, refs, j)
    decreases k
  {
    if j < k {
      CaptureStops(o, db, title, refs, j, k - 1);
    }
  }
}
