/** What a reader may take from a whole comparison report. */
module CompareLaws {
  import opened Seqs
  import opened StringOrder
  import opened CompareSpec
  import opened CompareProps

  /** There is something to say at this key: of a table on one side only at its empty column, of a shared
      table at each column that differs. */
  predicate Differs(a: SchemaState, b: SchemaState, t: string, c: string) {
    if t in a && t in b then !SameColumn(ColumnAt(a, t, c), ColumnAt(b, t, c)) else (t in a || t in b) && c == ""
  }

  predicate SaysAt(cs: seq<SchemaChange>, t: string, c: string) {
    exists i :: 0 <= i < |cs| && cs[i].table == t && cs[i].column == c
  }

  lemma DiffersIff(a: SchemaState, b: SchemaState, t: string, c: string)
    ensures DiffAt(a, b, t, c).Some? <==> Differs(a, b, t, c)
  {
    hide IndexColumns, ColumnAt, SameColumn;
    if t in a && t in b {
      DiffAtAgrees(a, b, t, c);
    }
  }

  /** The report goes from a to b, in strict order of table and column; what it says at a key is true of
      both schemas, and it says something at exactly the keys at which they differ. */
  lemma ReportLaw(a: Snapshot, b: Snapshot)
    ensures var r := Compare(a, b);
            && r.fromLabel == a.label_ && r.toLabel == b.label_
            && Ordered(r.schemaChanges)
            && (forall i :: 0 <= i < |r.schemaChanges| ==> TrueOf(r.schemaChanges[i], a.schema, b.schema))
            && (forall t, c :: SaysAt(r.schemaChanges, t, c) <==> Differs(a.schema, b.schema, t, c))
  {
    hide CompareSchema, CompareStatistics, DiffAt, Differs, TrueOf, Ordered;
    var x, y := a.schema, b.schema;
    CanonicalForm(x, y);
    var cs := CompareSchema(x, y);
    forall i | 0 <= i < |cs| ensures TrueOf(cs[i], x, y) {
      ChangesAreTrue(a, b, i);
    }
    forall t, c ensures SaysAt(cs, t, c) <==> Differs(x, y, t, c) {
      DiffersIff(x, y, t, c);
      DiffAtKey(x, y, t, c);
      if DiffAt(x, y, t, c).Some? {
        assert DiffAt(x, y, t, c).value in cs;
      }
    }
  }

  // ---- the number of breaking changes ----

  /** The keys a caller of a can no longer rely on in b. */
  ghost function BrokenKeys(a: SchemaState, b: SchemaState): set<(string, string)> {
    (set t | t in a && t !in b :: (t, ""))
    + (set t, i | t in a && 0 <= i < |a[t].columns| && Broken(a, b, t, a[t].columns[i].name) :: (t, a[t].columns[i].name))
  }

  lemma BrokenKeysMembers(a: SchemaState, b: SchemaState, t: string, c: string)
    ensures (t, c) in BrokenKeys(a, b) <==> Broken(a, b, t, c)
  {
    hide IndexColumns;
    ColumnAtHolds(a, t, c);
    if Broken(a, b, t, c) && t in b {
      var i :| 0 <= i < |a[t].columns| && a[t].columns[i].name == c;
    }
  }

  ghost function BreakingKeys(cs: seq<SchemaChange>): set<(string, string)> {
    set i | 0 <= i < |cs| && cs[i].breaking :: (cs[i].table, cs[i].column)
  }

  lemma BreakingKeysSnoc(cs: seq<SchemaChange>)
    requires cs != []
    ensures var k := |cs| - 1;
            BreakingKeys(cs) == BreakingKeys(cs[..k]) + if cs[k].breaking then {(cs[k].table, cs[k].column)} else {}
  {
    var k := |cs| - 1;
    assert forall i :: 0 <= i < k ==> cs[..k][i] == cs[i];
  }

  /** In an ordered list every breaking change has its own key. */
  lemma {:induction false} BreakingKeysCount(cs: seq<SchemaChange>)
    requires Ordered(cs)
    ensures BreakingCount(cs) == |BreakingKeys(cs)|
    decreases |cs|
  {
    if cs == [] {
      assert BreakingKeys(cs) == {};
    } else {
      var k := |cs| - 1;
      BreakingKeysCount(cs[..k]);
      LastApart(cs);
      hide KeyLess, BreakingKeys;
      BreakingKeysSnoc(cs);
    }
  }

  lemma LastApart(cs: seq<SchemaChange>)
    requires Ordered(cs) && cs != []
    ensures var k := |cs| - 1; (cs[k].table, cs[k].column) !in BreakingKeys(cs[..k])
  {
    var k := |cs| - 1;
    KeyLessIrreflexive(cs[k].table, cs[k].column);
    hide KeyLess;
    forall i | 0 <= i < k ensures (cs[..k][i].table, cs[..k][i].column) != (cs[k].table, cs[k].column) {
      assert KeyLess(cs[i].table, cs[i].column, cs[k].table, cs[k].column);
    }
  }

  /** The breaking count of a report is the number of tables and columns a caller of a can no longer
      rely on in b: gone, of another type, or no longer nullable. */
  lemma BreakingCountLaw(a: Snapshot, b: Snapshot)
    ensures BreakingCount(Compare(a, b).schemaChanges) == |BrokenKeys(a.schema, b.schema)|
    ensures forall t, c :: (t, c) in BrokenKeys(a.schema, b.schema) <==> Broken(a.schema, b.schema, t, c)
  {
    hide Compare, Broken, Ordered, BrokenKeys;
    var cs := Compare(a, b).schemaChanges;
    ReportLaw(a, b);
    BreakingKeysCount(cs);
    forall t, c ensures (t, c) in BrokenKeys(a.schema, b.schema) <==> Broken(a.schema, b.schema, t, c) {
      BrokenKeysMembers(a.schema, b.schema, t, c);
    }
    forall p ensures p in BreakingKeys(cs) <==> p in BrokenKeys(a.schema, b.schema) {
      assert p == (p.0, p.1);
      BreakingIff(a, b, p.0, p.1);
    }
    assert BreakingKeys(cs) == BrokenKeys(a.schema, b.schema);
  }
}
