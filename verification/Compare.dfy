/** The comparator as internal/snapshot/comparator.go writes it, proved against CompareSpec. Maps are
    iterated in an arbitrary order. */
module Comparator {
  import opened Seqs
  import opened StringOrder
  import opened Spec = CompareSpec

  /** Sorting a list of distinct strings. */
  method SortStrings(list: seq<string>) returns (out: seq<string>)
    requires forall i, j :: 0 <= i < j < |list| ==> list[i] != list[j]
    ensures Sorted(out) && forall x :: x in out <==> x in list
  {
    out := [];
    for i := 0 to |list|
      invariant Sorted(out)
      invariant forall x :: x in out <==> x in list[..i]
    {
      InsertSorted(list[i], out);
      out := Insert(list[i], out);
      assert list[..i + 1] == list[..i] + [list[i]];
    }
    assert list[..|list|] == list;
  }

  /** The union of two maps' keys: collected in whatever order iteration yields, then sorted. */
  method SortedKeys<V>(a: map<string, V>, b: map<string, V>) returns (out: seq<string>)
    ensures out == SortedOf(a.Keys + b.Keys)
  {
    var seen := a.Keys + b.Keys;
    var list: seq<string> := [];
    var rest := seen;
    while rest != {}
      invariant rest <= seen
      invariant forall x :: x in list <==> x in seen && x !in rest
      invariant forall i, j :: 0 <= i < j < |list| ==> list[i] != list[j]
      decreases rest
    {
      var k :| k in rest;
      rest := rest - {k};
      list := list + [k];
    }
    out := SortStrings(list);
    SortedUnique(out, SortedOf(a.Keys + b.Keys));
  }

  method IndexColumns(cols: seq<ColumnSchema>) returns (m: map<string, ColumnSchema>)
    ensures m == Spec.IndexColumns(cols)
  {
    m := map[];
    for i := 0 to |cols|
      invariant m == Spec.IndexColumns(cols[..i])
    {
      assert cols[..i + 1][..i] == cols[..i];
      m := m[cols[i].name := cols[i]];
    }
    assert cols[..|cols|] == cols;
  }

  method CompareColumns(table: string, a: TableSchema, b: TableSchema) returns (changes: seq<SchemaChange>)
    ensures changes == Spec.CompareColumns(table, a, b)
  {
    hide Spec.IndexColumns, DiffColumn, SortedOf, Less;
    changes := [];
    var colsA := IndexColumns(a.columns);
    var colsB := IndexColumns(b.columns);
    var names := SortedKeys(colsA, colsB);
    for i := 0 to |names|
      invariant changes == ColumnChanges(table, names[..i], colsA, colsB)
    {
      var name := names[i];
      assert name in names;
      assert names[..i + 1][..i] == names[..i];
      if name !in colsA {
        var cb := colsB[name];
        changes := changes + [SchemaChange(Added, table, name, ColumnAdded(cb.dataType, cb.nullable), false)];
      } else if name !in colsB {
        changes := changes + [SchemaChange(Removed, table, name, ColumnRemoved, true)];
      } else {
        var c := DiffColumn(table, colsA[name], colsB[name]);
        if c.Some? {
          changes := changes + [c.value];
        }
      }
    }
    assert names[..|names|] == names;
  }

  method CompareSchema(a: SchemaState, b: SchemaState) returns (changes: seq<SchemaChange>)
    ensures changes == Spec.CompareSchema(a, b)
  {
    hide Spec.CompareColumns, SortedOf, Less;
    changes := [];
    var names := SortedKeys(a, b);
    for i := 0 to |names|
      invariant changes == TableChanges(names[..i], a, b)
    {
      var name := names[i];
      assert name in names;
      assert names[..i + 1][..i] == names[..i];
      if name !in a {
        changes := changes + [SchemaChange(Added, name, "", TableAdded, false)];
      } else if name !in b {
        changes := changes + [SchemaChange(Removed, name, "", TableRemoved, true)];
      } else {
        var cs := CompareColumns(name, a[name], b[name]);
        changes := changes + cs;
      }
    }
    assert names[..|names|] == names;
  }

  method CompareColumnStats(a: TableStatistics, b: TableStatistics) returns (changes: seq<ColumnDataChange>)
    ensures changes == Spec.CompareColumnStats(a, b)
  {
    hide SortedOf, Less;
    changes := [];
    var names := SortedKeys(a.columns, b.columns);
    for i := 0 to |names|
      invariant changes == StatsChanges(names[..i], a.columns, b.columns)
    {
      var col := names[i];
      assert names[..i + 1][..i] == names[..i];
      if !(col in a.columns && col in b.columns) {
        continue;
      }
      var ca, cb := a.columns[col], b.columns[col];
      if ca == cb {
        continue;
      }
      var cc := ColumnDataChange(col, ca.nullCount, cb.nullCount, ca.nonNullCount, cb.nonNullCount,
                                 ca.distinctCount, cb.distinctCount, false);
      if ca.nullCount > 0 && cb.nullCount < ca.nullCount {
        cc := cc.(notable := true);
      }
      changes := changes + [cc];
    }
    assert names[..|names|] == names;
  }

  method CompareStatistics(a: map<string, TableStatistics>, b: map<string, TableStatistics>)
    returns (changes: seq<DataChange>)
    ensures changes == Spec.CompareStatistics(a, b)
  {
    hide SortedOf, Less, Spec.CompareColumnStats;
    changes := [];
    var names := SortedKeys(a, b);
    for i := 0 to |names|
      invariant |changes| == i
      invariant forall j :: 0 <= j < i ==> (names[j] in a || names[j] in b) && changes[j] == DataDiff(names[j], a, b)
    {
      var name := names[i];
      assert name in names;
      if name !in a {
        changes := changes + [DataChange(name, 0, b[name].rowCount, [], NewTable)];
        continue;
      }
      if name !in b {
        changes := changes + [DataChange(name, a[name].rowCount, 0, [], TableGone)];
        continue;
      }
      var dc := DataChange(name, a[name].rowCount, b[name].rowCount, [], NoNote);
      if a[name].skipped || b[name].skipped {
        dc := dc.(note := StatisticsSkipped);
      } else {
        var cols := CompareColumnStats(a[name], b[name]);
        dc := dc.(columns := cols);
      }
      changes := changes + [dc];
    }
  }

  method Compare(a: Snapshot, b: Snapshot) returns (report: Report)
    ensures report == Spec.Compare(a, b)
    ensures report.fromLabel == a.label_ && report.toLabel == b.label_
  {
    var schemaChanges := CompareSchema(a.schema, b.schema);
    var dataChanges := CompareStatistics(a.statistics, b.statistics);
    report := Report(a.label_, b.label_, schemaChanges, dataChanges);
  }

  method BreakingCount(r: Report) returns (n: nat)
    ensures n == Spec.BreakingCount(r.schemaChanges)
  {
    n := 0;
    for i := 0 to |r.schemaChanges|
      invariant n == Spec.BreakingCount(r.schemaChanges[..i])
    {
      assert r.schemaChanges[..i + 1][..i] == r.schemaChanges[..i];
      if r.schemaChanges[i].breaking {
        n := n + 1;
      }
    }
    assert r.schemaChanges[..|r.schemaChanges|] == r.schemaChanges;
  }

  method NotableDataCount(r: Report) returns (n: nat)
    ensures n == Spec.NotableDataCount(r.dataChanges)
  {
    n := 0;
    for i := 0 to |r.dataChanges|
      invariant n == Spec.NotableDataCount(r.dataChanges[..i])
    {
      assert r.dataChanges[..i + 1][..i] == r.dataChanges[..i];
      var cols := r.dataChanges[i].columns;
      ghost var before := n;
      for j := 0 to |cols|
        invariant n == before + NotableIn(cols[..j])
      {
        assert cols[..j + 1][..j] == cols[..j];
        if cols[j].notable {
          n := n + 1;
        }
      }
      assert cols[..|cols|] == cols;
    }
    assert r.dataChanges[..|r.dataChanges|] == r.dataChanges;
  }
}
