/** What a comparison report means: canonical form, correctness, and the laws between reports. */
module CompareProps {
  import opened Seqs
  import opened StringOrder
  import opened CompareSpec

  /** Reports are ordered by table, then column. */
  predicate KeyLess(t1: string, c1: string, t2: string, c2: string) {
    Less(t1, t2) || (t1 == t2 && Less(c1, c2))
  }

  ghost predicate Ordered(cs: seq<SchemaChange>) {
    forall i, j :: 0 <= i < j < |cs| ==> KeyLess(cs[i].table, cs[i].column, cs[j].table, cs[j].column)
  }

  function ColumnAt(s: SchemaState, t: string, c: string): Option<ColumnSchema> {
    if t in s && c in IndexColumns(s[t].columns) then Some(IndexColumns(s[t].columns)[c]) else None
  }

  /** x is the column named c of table t, the last of that name; None when there is no such table or column. */
  ghost predicate Holds(s: SchemaState, t: string, c: string, x: Option<ColumnSchema>) {
    if x.None? then t !in s || forall i :: 0 <= i < |s[t].columns| ==> s[t].columns[i].name != c
    else t in s && LastNamed(s[t].columns, c, x.value)
  }

  ghost predicate LastNamed(cols: seq<ColumnSchema>, c: string, x: ColumnSchema) {
    exists i :: 0 <= i < |cols| && cols[i] == x && x.name == c && forall j :: i < j < |cols| ==> cols[j].name != c
  }

  lemma {:induction false} IndexLast(cols: seq<ColumnSchema>, c: string)
    ensures c in IndexColumns(cols) ==> LastNamed(cols, c, IndexColumns(cols)[c])
    ensures c !in IndexColumns(cols) ==> forall i :: 0 <= i < |cols| ==> cols[i].name != c
    decreases |cols|
  {
    if cols != [] {
      var k := |cols| - 1;
      IndexLast(cols[..k], c);
      assert cols == cols[..k] + [cols[k]];
      if cols[k].name != c && c in IndexColumns(cols) {
        var i :| 0 <= i < k && cols[..k][i] == IndexColumns(cols[..k])[c] && forall j :: i < j < k ==> cols[..k][j].name != c;
        assert cols[i] == cols[..k][i];
        assert forall j :: i < j < k ==> cols[j] == cols[..k][j];
      }
    }
  }

  lemma ColumnAtHolds(s: SchemaState, t: string, c: string)
    ensures Holds(s, t, c, ColumnAt(s, t, c))
  {
    hide LastNamed;
    if t in s {
      IndexLast(s[t].columns, c);
    }
  }

  /** What a report should say at a key, judged from the two schemas alone. */
  function DiffAt(a: SchemaState, b: SchemaState, t: string, c: string): Option<SchemaChange> {
    if t in a && t in b then ColumnDiff(t, c, IndexColumns(a[t].columns), IndexColumns(b[t].columns))
    else if c != "" then None
    else if t in b then Some(SchemaChange(Added, t, "", TableAdded, false))
    else if t in a then Some(SchemaChange(Removed, t, "", TableRemoved, true))
    else None
  }

  // ---- canonical form ----

  /** c is the change between the two column maps at its own key. */
  predicate IsColumnDiff(c: SchemaChange, table: string, names: seq<string>, a: map<string, ColumnSchema>, b: map<string, ColumnSchema>) {
    c.table == table && c.column in names && ColumnDiff(table, c.column, a, b) == Some(c)
  }

  lemma {:induction false} ColumnChangesContents(table: string, names: seq<string>, a: map<string, ColumnSchema>, b: map<string, ColumnSchema>)
    requires (forall n :: n in a ==> a[n].name == n) && (forall n :: n in b ==> b[n].name == n)
    ensures forall c :: c in ColumnChanges(table, names, a, b) ==> IsColumnDiff(c, table, names, a, b)
    ensures forall n :: n in names && ColumnDiff(table, n, a, b).Some? ==>
              ColumnDiff(table, n, a, b).value in ColumnChanges(table, names, a, b)
    decreases |names|
  {
    if names != [] {
      var k := |names| - 1;
      ColumnChangesContents(table, names[..k], a, b);
      ColumnDiffKey(table, names[k], a, b);
      assert names == names[..k] + [names[k]];
      hide ColumnDiff;
    }
  }

  lemma OrderedAppend(cs: seq<SchemaChange>, c: SchemaChange)
    requires Ordered(cs)
    requires forall i :: 0 <= i < |cs| ==> KeyLess(cs[i].table, cs[i].column, c.table, c.column)
    ensures Ordered(cs + [c])
  {
    hide KeyLess;
  }

  lemma {:induction false} ColumnChangesFacts(table: string, names: seq<string>, a: map<string, ColumnSchema>, b: map<string, ColumnSchema>)
    requires Sorted(names)
    requires (forall n :: n in a ==> a[n].name == n) && (forall n :: n in b ==> b[n].name == n)
    ensures var cs := ColumnChanges(table, names, a, b);
            && Ordered(cs)
            && (forall c :: c in cs ==> IsColumnDiff(c, table, names, a, b))
            && (forall n :: n in names && ColumnDiff(table, n, a, b).Some? ==> ColumnDiff(table, n, a, b).value in cs)
    decreases |names|
  {
    ColumnChangesContents(table, names, a, b);
    if names != [] {
      var k := |names| - 1;
      var cs := ColumnChanges(table, names[..k], a, b);
      ColumnChangesFacts(table, names[..k], a, b);
      ColumnDiffKey(table, names[k], a, b);
      hide ColumnDiff, Less, Ordered;
      var d := ColumnDiff(table, names[k], a, b);
      forall i | 0 <= i < |cs| ensures KeyLess(cs[i].table, cs[i].column, table, names[k]) {
        assert IsColumnDiff(cs[i], table, names[..k], a, b);
        var j :| 0 <= j < k && names[..k][j] == cs[i].column;
        assert Less(names[j], names[k]);
      }
      if d.Some? {
        OrderedAppend(cs, d.value);
      } else {
        assert cs + [] == cs;
      }
    }
  }

  lemma ColumnDiffKey(table: string, n: string, a: map<string, ColumnSchema>, b: map<string, ColumnSchema>)
    requires (forall n :: n in a ==> a[n].name == n) && (forall n :: n in b ==> b[n].name == n)
    ensures ColumnDiff(table, n, a, b).Some? ==>
              && ColumnDiff(table, n, a, b).value.table == table && ColumnDiff(table, n, a, b).value.column == n
              && (n in a || n in b)
  {
  }

  /** Within a table the report is that table's part of the pointwise difference. */
  lemma TableDiffFacts(name: string, a: SchemaState, b: SchemaState)
    ensures var cs := TableDiff(name, a, b);
            && Ordered(cs)
            && (forall i :: 0 <= i < |cs| ==> cs[i].table == name && DiffAt(a, b, name, cs[i].column) == Some(cs[i]))
            && (forall c :: DiffAt(a, b, name, c).Some? ==> DiffAt(a, b, name, c).value in cs)
  {
    if name in a && name in b {
      var x, y := IndexColumns(a[name].columns), IndexColumns(b[name].columns);
      var names := SortedOf(x.Keys + y.Keys);
      ColumnChangesFacts(name, names, x, y);
      var cs := TableDiff(name, a, b);
      forall i | 0 <= i < |cs| ensures cs[i].table == name && DiffAt(a, b, name, cs[i].column) == Some(cs[i]) {
        assert IsColumnDiff(cs[i], name, names, x, y);
      }
      hide IndexColumns, ColumnChanges, Less;
      forall c | DiffAt(a, b, name, c).Some? ensures DiffAt(a, b, name, c).value in TableDiff(name, a, b) {
        hide ColumnDiff;
        ColumnDiffKey(name, c, x, y);
        assert c in names;
      }
    }
  }

  lemma {:induction false} TableChangesFacts(names: seq<string>, a: SchemaState, b: SchemaState)
    requires Sorted(names)
    ensures var cs := TableChanges(names, a, b);
            && Ordered(cs)
            && (forall i :: 0 <= i < |cs| ==> cs[i].table in names && DiffAt(a, b, cs[i].table, cs[i].column) == Some(cs[i]))
            && (forall t, c :: t in names && DiffAt(a, b, t, c).Some? ==> DiffAt(a, b, t, c).value in cs)
    decreases |names|
  {
    hide DiffAt, TableDiff, Less;
    if names != [] {
      var k := |names| - 1;
      var cs, ds := TableChanges(names[..k], a, b), TableDiff(names[k], a, b);
      TableChangesFacts(names[..k], a, b);
      TableDiffFacts(names[k], a, b);
      assert names == names[..k] + [names[k]];
      forall i | 0 <= i < |cs| ensures Less(cs[i].table, names[k]) {
        var j :| 0 <= j < k && names[..k][j] == cs[i].table;
        assert Less(names[j], names[k]);
      }
    }
  }

  lemma DiffAtKey(a: SchemaState, b: SchemaState, t: string, c: string)
    ensures DiffAt(a, b, t, c).Some? ==>
              && DiffAt(a, b, t, c).value.table == t && DiffAt(a, b, t, c).value.column == c
              && (t in a || t in b)
  {
    if t in a && t in b {
      ColumnDiffKey(t, c, IndexColumns(a[t].columns), IndexColumns(b[t].columns));
    }
  }

  /** The report is strictly sorted by table and column, and holds exactly one change for each key at
      which the schemas differ: the change at that key. */
  lemma CanonicalForm(a: SchemaState, b: SchemaState)
    ensures var cs := CompareSchema(a, b);
            && Ordered(cs)
            && (forall i :: 0 <= i < |cs| ==> DiffAt(a, b, cs[i].table, cs[i].column) == Some(cs[i]))
            && (forall t, c :: DiffAt(a, b, t, c).Some? ==> DiffAt(a, b, t, c).value in cs)
  {
    hide DiffAt, TableChanges;
    var names := SortedOf(a.Keys + b.Keys);
    TableChangesFacts(names, a, b);
    forall t, c | DiffAt(a, b, t, c).Some? ensures DiffAt(a, b, t, c).value in CompareSchema(a, b) {
      DiffAtKey(a, b, t, c);
      assert t in names;
    }
  }

  lemma KeyLessIrreflexive(t: string, c: string)
    ensures !KeyLess(t, c, t, c)
  {
    LessIrreflexive(t);
    LessIrreflexive(c);
  }

  lemma KeyLessAsymmetric(t: string, c: string, u: string, d: string)
    requires KeyLess(t, c, u, d)
    ensures !KeyLess(u, d, t, c)
  {
    if KeyLess(u, d, t, c) {
      LessIrreflexive(t);
      LessIrreflexive(c);
      if Less(t, u) && Less(u, t) {
        LessTransitive(t, u, t);
      }
      if t == u {
        LessTransitive(c, d, c);
      }
    }
  }

  /** No other ordered list says the same: the order in which maps are iterated cannot show. */
  lemma {:induction false} OrderedUnique(cs: seq<SchemaChange>, ds: seq<SchemaChange>)
    requires Ordered(cs) && Ordered(ds) && forall c :: c in cs <==> c in ds
    ensures cs == ds
    decreases |cs|
  {
    if |cs| + |ds| > 0 {
      var z := (cs + ds)[0];
      assert z in cs && z in ds;
      var x, y := cs[0], ds[0];
      assert x in ds && y in cs;
      if x != y {
        FirstIsFirst(cs, y);
        FirstIsFirst(ds, x);
        KeyLessAsymmetric(x.table, x.column, y.table, y.column);
      }
      OrderedTail(cs);
      OrderedTail(ds);
      OrderedUnique(cs[1..], ds[1..]);
      assert cs == [x] + cs[1..] && ds == [y] + ds[1..];
    }
  }

  lemma FirstIsFirst(cs: seq<SchemaChange>, c: SchemaChange)
    requires Ordered(cs) && c in cs && c != cs[0]
    ensures KeyLess(cs[0].table, cs[0].column, c.table, c.column)
  {
    hide KeyLess;
  }

  lemma OrderedTail(cs: seq<SchemaChange>)
    requires Ordered(cs) && cs != []
    ensures Ordered(cs[1..])
    ensures forall c :: c in cs[1..] <==> c in cs && c != cs[0]
  {
    KeyLessIrreflexive(cs[0].table, cs[0].column);
    hide KeyLess;
    forall c ensures c in cs[1..] <==> c in cs && c != cs[0] {
      if c in cs && c != cs[0] {
        var i :| 0 <= i < |cs| && cs[i] == c;
        assert cs[1..][i - 1] == c;
      }
    }
  }

  lemma ReportIsUnique(a: SchemaState, b: SchemaState, ds: seq<SchemaChange>)
    requires Ordered(ds)
    requires forall i :: 0 <= i < |ds| ==> DiffAt(a, b, ds[i].table, ds[i].column) == Some(ds[i])
    requires forall t, c :: DiffAt(a, b, t, c).Some? ==> DiffAt(a, b, t, c).value in ds
    ensures ds == CompareSchema(a, b)
  {
    CanonicalForm(a, b);
    hide DiffAt, CompareSchema, Ordered;
    var cs := CompareSchema(a, b);
    forall x ensures x in cs <==> x in ds {
      if x in cs {
        var i :| 0 <= i < |cs| && cs[i] == x;
      }
      if x in ds {
        var i :| 0 <= i < |ds| && ds[i] == x;
      }
    }
    OrderedUnique(cs, ds);
  }

  // ---- correctness ----

  /** Same name set, and at every name the same type, nullability and default. */
  predicate SameColumn(x: Option<ColumnSchema>, y: Option<ColumnSchema>) {
    x.Some? == y.Some? &&
    (x.Some? ==> && x.value.dataType == y.value.dataType && x.value.nullable == y.value.nullable
                 && x.value.default_ == y.value.default_)
  }

  ghost predicate SchemasAgree(a: SchemaState, b: SchemaState) {
    a.Keys == b.Keys && forall t, c :: SameColumn(ColumnAt(a, t, c), ColumnAt(b, t, c))
  }

  lemma DiffAtAgrees(a: SchemaState, b: SchemaState, t: string, c: string)
    requires t in a && t in b
    ensures DiffAt(a, b, t, c) == None <==> SameColumn(ColumnAt(a, t, c), ColumnAt(b, t, c))
  {
    hide IndexColumns;
  }

  /** Nothing is reported if and only if both schemas have the same tables and columns with the same
      type, nullability and default. */
  lemma EmptyIffAgree(a: Snapshot, b: Snapshot)
    ensures Compare(a, b).schemaChanges == [] <==> SchemasAgree(a.schema, b.schema)
  {
    var x, y := a.schema, b.schema;
    CanonicalForm(x, y);
    hide CompareSchema, IndexColumns, ColumnDiff, SameColumn, CompareStatistics;
    var cs := Compare(a, b).schemaChanges;
    if cs == [] {
      forall t ensures t in x <==> t in y {
        assert DiffAt(x, y, t, "") == None;
      }
      forall t, c ensures SameColumn(ColumnAt(x, t, c), ColumnAt(y, t, c)) {
        assert DiffAt(x, y, t, c) == None;
        if t in x {
          DiffAtAgrees(x, y, t, c);
        } else {
          NoColumn(x, y, t, c);
        }
      }
    } else if SchemasAgree(x, y) {
      var d := cs[0];
      assert DiffAt(x, y, d.table, d.column) == Some(d);
      DiffAtKey(x, y, d.table, d.column);
      assert d.table in x.Keys && d.table in y.Keys;
      DiffAtAgrees(x, y, d.table, d.column);
      assert false;
    }
  }

  lemma NoColumn(a: SchemaState, b: SchemaState, t: string, c: string)
    requires t !in a && t !in b
    ensures SameColumn(ColumnAt(a, t, c), ColumnAt(b, t, c))
  {
  }

  /** What a change claims about the column (or the table) on either side. */
  predicate Claims(c: SchemaChange, inA: bool, inB: bool, x: Option<ColumnSchema>, y: Option<ColumnSchema>) {
    match c.detail
    case TableAdded => c.kind == Added && !c.breaking && c.column == "" && !inA && inB
    case TableRemoved => c.kind == Removed && c.breaking && c.column == "" && inA && !inB
    case ColumnAdded(typ, nullable) =>
      c.kind == Added && !c.breaking && inA && x.None? && y.Some? && y.value.dataType == typ && y.value.nullable == nullable
    case ColumnRemoved => c.kind == Removed && c.breaking && inB && x.Some? && y.None?
    case TypeChanged(from, to) =>
      c.kind == Modified && c.breaking && x.Some? && y.Some? && x.value.dataType == from != to == y.value.dataType
    case NullTightened =>
      c.kind == Modified && c.breaking && x.Some? && y.Some? && x.value.dataType == y.value.dataType
      && x.value.nullable && !y.value.nullable
    case NullLoosened =>
      c.kind == Modified && !c.breaking && x.Some? && y.Some? && x.value.dataType == y.value.dataType
      && !x.value.nullable && y.value.nullable
    case DefaultChanged(from, to) =>
      c.kind == Modified && !c.breaking && x.Some? && y.Some? && x.value.dataType == y.value.dataType
      && x.value.nullable == y.value.nullable && x.value.default_ == from != to == y.value.default_
  }

  lemma DiffAtClaims(a: SchemaState, b: SchemaState, t: string, c: string)
    ensures DiffAt(a, b, t, c).Some? ==>
              Claims(DiffAt(a, b, t, c).value, t in a, t in b, ColumnAt(a, t, c), ColumnAt(b, t, c))
  {
    hide IndexColumns;
  }

  predicate TrueOf(c: SchemaChange, a: SchemaState, b: SchemaState) {
    Claims(c, c.table in a, c.table in b, ColumnAt(a, c.table, c.column), ColumnAt(b, c.table, c.column))
  }

  /** Every reported change is true of the two schemas: its kind, its from and to, and its verdict. */
  lemma ChangesAreTrue(a: Snapshot, b: Snapshot, i: nat)
    requires i < |Compare(a, b).schemaChanges|
    ensures TrueOf(Compare(a, b).schemaChanges[i], a.schema, b.schema)
  {
    hide CompareSchema, DiffAt, Claims, ColumnAt, CompareStatistics;
    CanonicalForm(a.schema, b.schema);
    var c := CompareSchema(a.schema, b.schema)[i];
    DiffAtClaims(a.schema, b.schema, c.table, c.column);
  }

  /** A caller's column x can no longer be relied on as y: gone, of another type, or no longer nullable. */
  predicate Breaks(x: Option<ColumnSchema>, y: Option<ColumnSchema>) {
    x.Some? && (y.None? || x.value.dataType != y.value.dataType || (x.value.nullable && !y.value.nullable))
  }

  /** The report holds a breaking change at this key. */
  ghost predicate BreakingAt(a: Snapshot, b: Snapshot, t: string, c: string) {
    var cs := Compare(a, b).schemaChanges;
    exists i :: 0 <= i < |cs| && cs[i].table == t && cs[i].column == c && cs[i].breaking
  }

  /** Table t is gone (said at its empty column), or its column c can no longer be relied on. */
  predicate Broken(a: SchemaState, b: SchemaState, t: string, c: string) {
    if t in a && t !in b then c == "" else t in a && Breaks(ColumnAt(a, t, c), ColumnAt(b, t, c))
  }

  lemma DiffAtBreaks(a: SchemaState, b: SchemaState, t: string, c: string)
    ensures DiffAt(a, b, t, c).Some? && DiffAt(a, b, t, c).value.breaking <==> Broken(a, b, t, c)
  {
    hide IndexColumns;
  }

  /** A change is breaking if and only if its table or column is removed, its type changes, or NULL is
      no longer allowed. */
  lemma BreakingIff(a: Snapshot, b: Snapshot, t: string, c: string)
    ensures BreakingAt(a, b, t, c) <==> Broken(a.schema, b.schema, t, c)
  {
    var x, y := a.schema, b.schema;
    CanonicalForm(x, y);
    DiffAtBreaks(x, y, t, c);
    DiffAtKey(x, y, t, c);
    hide CompareSchema, DiffAt, Broken, Ordered, CompareStatistics;
    var cs := CompareSchema(x, y);
    if DiffAt(x, y, t, c).Some? && DiffAt(x, y, t, c).value.breaking {
      assert DiffAt(x, y, t, c).value in cs;
      var i :| 0 <= i < |cs| && cs[i] == DiffAt(x, y, t, c).value;
    }
  }

  lemma {:induction false} NoneBreaking(cs: seq<SchemaChange>)
    ensures BreakingCount(cs) == 0 <==> forall i :: 0 <= i < |cs| ==> !cs[i].breaking
    decreases |cs|
  {
    if cs != [] {
      var k := |cs| - 1;
      NoneBreaking(cs[..k]);
      assert cs[..k] + [cs[k]] == cs;
      assert BreakingCount(cs) == 0 ==> !cs[k].breaking;
      if BreakingCount(cs) == 0 {
        forall i | 0 <= i < |cs| ensures !cs[i].breaking {
          assert i < k ==> !cs[..k][i].breaking;
        }
      }
    }
  }

  // ---- chains of migrations ----

  /** Breaking over a chain breaks at one of its steps: the relation "does not break" composes. */
  lemma {:induction false} ChainBreaks(ss: seq<SchemaState>, t: string, c: string)
    requires |ss| >= 1 && t in ss[0]
    requires t in ss[|ss| - 1] ==> Breaks(ColumnAt(ss[0], t, c), ColumnAt(ss[|ss| - 1], t, c))
    ensures exists i :: 0 <= i < |ss| - 1 && t in ss[i]
              && (t !in ss[i + 1] || Breaks(ColumnAt(ss[i], t, c), ColumnAt(ss[i + 1], t, c)))
    decreases |ss|
  {
    hide IndexColumns;
    var n := |ss| - 1;
    if n == 0 {
      assert false;
    } else if t !in ss[n - 1] || Breaks(ColumnAt(ss[0], t, c), ColumnAt(ss[n - 1], t, c)) {
      ChainBreaks(ss[..n], t, c);
      var i :| 0 <= i < n - 1 && t in ss[..n][i]
               && (t !in ss[..n][i + 1] || Breaks(ColumnAt(ss[..n][i], t, c), ColumnAt(ss[..n][i + 1], t, c)));
      assert t in ss[i] && (t !in ss[i + 1] || Breaks(ColumnAt(ss[i], t, c), ColumnAt(ss[i + 1], t, c)));
    } else {
      var i := n - 1;
      assert t in ss[i] && (t !in ss[i + 1] || Breaks(ColumnAt(ss[i], t, c), ColumnAt(ss[i + 1], t, c)));
    }
  }

  function Schemas(ss: seq<Snapshot>): (xs: seq<SchemaState>)
    ensures |xs| == |ss| && forall i :: 0 <= i < |ss| ==> xs[i] == ss[i].schema
  {
    seq(|ss|, i requires 0 <= i < |ss| => ss[i].schema)
  }

  /** If comparing the first with the last snapshot of a chain reports a breaking change, comparing some
      adjacent pair reports one at the same column or at its table. */
  lemma BreakingTriangle(ss: seq<Snapshot>, t: string, c: string)
    requires |ss| >= 1 && BreakingAt(ss[0], ss[|ss| - 1], t, c)
    ensures exists i :: 0 <= i < |ss| - 1 && (BreakingAt(ss[i], ss[i + 1], t, c) || BreakingAt(ss[i], ss[i + 1], t, ""))
  {
    hide BreakingAt, Breaks, ColumnAt;
    var n := |ss| - 1;
    var xs := Schemas(ss);
    BreakingIff(ss[0], ss[n], t, c);
    ChainBreaks(xs, t, c);
    var i :| 0 <= i < n && t in xs[i]
             && (t !in xs[i + 1] || Breaks(ColumnAt(xs[i], t, c), ColumnAt(xs[i + 1], t, c)));
    BreakingIff(ss[i], ss[i + 1], t, c);
    BreakingIff(ss[i], ss[i + 1], t, "");
  }

  lemma IsBreakingAt(a: Snapshot, b: Snapshot, i: nat)
    requires i < |Compare(a, b).schemaChanges| && Compare(a, b).schemaChanges[i].breaking
    ensures BreakingAt(a, b, Compare(a, b).schemaChanges[i].table, Compare(a, b).schemaChanges[i].column)
  {
    hide Compare;
  }

  lemma NotBreakingAt(a: Snapshot, b: Snapshot, t: string, c: string)
    ensures BreakingAt(a, b, t, c) ==> BreakingCount(Compare(a, b).schemaChanges) > 0
  {
    hide Compare;
    NoneBreaking(Compare(a, b).schemaChanges);
  }

  /** A chain of migrations none of which is breaking is not breaking overall. */
  lemma NonBreakingChain(ss: seq<Snapshot>)
    requires |ss| >= 1
    requires forall i :: 0 <= i < |ss| - 1 ==> BreakingCount(Compare(ss[i], ss[i + 1]).schemaChanges) == 0
    ensures BreakingCount(Compare(ss[0], ss[|ss| - 1]).schemaChanges) == 0
  {
    hide Compare, BreakingCount, BreakingAt;
    var cs := Compare(ss[0], ss[|ss| - 1]).schemaChanges;
    NoneBreaking(cs);
    forall k | 0 <= k < |cs| ensures !cs[k].breaking {
      if cs[k].breaking {
        var t, c := cs[k].table, cs[k].column;
        IsBreakingAt(ss[0], ss[|ss| - 1], k);
        BreakingTriangle(ss, t, c);
        var i :| 0 <= i < |ss| - 1 && (BreakingAt(ss[i], ss[i + 1], t, c) || BreakingAt(ss[i], ss[i + 1], t, ""));
        NotBreakingAt(ss[i], ss[i + 1], t, c);
        NotBreakingAt(ss[i], ss[i + 1], t, "");
      }
    }
  }

  // ---- the mirror law ----

  /** The same change seen from the other side. */
  predicate Mirror(c: SchemaChange, d: SchemaChange) {
    && c.table == d.table && c.column == d.column
    && match c.detail
       case TableAdded => c.kind == Added && d.kind == Removed && d.detail == TableRemoved && !c.breaking && d.breaking
       case TableRemoved => c.kind == Removed && d.kind == Added && d.detail == TableAdded && c.breaking && !d.breaking
       case ColumnAdded(_, _) => c.kind == Added && d.kind == Removed && d.detail == ColumnRemoved && !c.breaking && d.breaking
       case ColumnRemoved => c.kind == Removed && d.kind == Added && d.detail.ColumnAdded? && c.breaking && !d.breaking
       case TypeChanged(x, y) => c.kind == Modified == d.kind && d.detail == TypeChanged(y, x) && c.breaking && d.breaking
       case NullTightened => c.kind == Modified == d.kind && d.detail == NullLoosened && c.breaking && !d.breaking
       case NullLoosened => c.kind == Modified == d.kind && d.detail == NullTightened && !c.breaking && d.breaking
       case DefaultChanged(x, y) =>
         c.kind == Modified == d.kind && d.detail == DefaultChanged(y, x) && !c.breaking && !d.breaking
  }

  predicate Mirrored(cs: seq<SchemaChange>, ds: seq<SchemaChange>) {
    |cs| == |ds| && forall i :: 0 <= i < |cs| ==> Mirror(cs[i], ds[i])
  }

  lemma ColumnDiffMirror(table: string, n: string, a: map<string, ColumnSchema>, b: map<string, ColumnSchema>)
    requires (forall n :: n in a ==> a[n].name == n) && (forall n :: n in b ==> b[n].name == n)
    ensures Mirrored(Listed(ColumnDiff(table, n, a, b)), Listed(ColumnDiff(table, n, b, a)))
  {
  }

  lemma MirroredAppend(cs: seq<SchemaChange>, ds: seq<SchemaChange>, cs': seq<SchemaChange>, ds': seq<SchemaChange>)
    requires Mirrored(cs, ds) && Mirrored(cs', ds')
    ensures Mirrored(cs + cs', ds + ds')
  {
    hide Mirror;
  }

  lemma {:induction false} ColumnChangesMirror(table: string, names: seq<string>, a: map<string, ColumnSchema>, b: map<string, ColumnSchema>)
    requires (forall n :: n in a ==> a[n].name == n) && (forall n :: n in b ==> b[n].name == n)
    ensures Mirrored(ColumnChanges(table, names, a, b), ColumnChanges(table, names, b, a))
    decreases |names|
  {
    hide ColumnDiff, Mirror;
    if names != [] {
      var k := |names| - 1;
      ColumnChangesMirror(table, names[..k], a, b);
      ColumnDiffMirror(table, names[k], a, b);
      MirroredAppend(ColumnChanges(table, names[..k], a, b), ColumnChanges(table, names[..k], b, a),
                     Listed(ColumnDiff(table, names[k], a, b)), Listed(ColumnDiff(table, names[k], b, a)));
    }
  }

  lemma TableDiffMirror(name: string, a: SchemaState, b: SchemaState)
    ensures Mirrored(TableDiff(name, a, b), TableDiff(name, b, a))
  {
    hide IndexColumns, ColumnChanges;
    if name in a && name in b {
      var x, y := IndexColumns(a[name].columns), IndexColumns(b[name].columns);
      assert x.Keys + y.Keys == y.Keys + x.Keys;
      ColumnChangesMirror(name, SortedOf(x.Keys + y.Keys), x, y);
    }
  }

  lemma {:induction false} TableChangesMirror(names: seq<string>, a: SchemaState, b: SchemaState)
    ensures Mirrored(TableChanges(names, a, b), TableChanges(names, b, a))
    decreases |names|
  {
    hide TableDiff, Mirror;
    if names != [] {
      var k := |names| - 1;
      TableChangesMirror(names[..k], a, b);
      TableDiffMirror(names[k], a, b);
      MirroredAppend(TableChanges(names[..k], a, b), TableChanges(names[..k], b, a),
                     TableDiff(names[k], a, b), TableDiff(names[k], b, a));
    }
  }

  function Count(cs: seq<SchemaChange>, p: Detail -> bool): nat {
    if cs == [] then 0
    else
      var k := |cs| - 1;
      Count(cs[..k], p) + if p(cs[k].detail) then 1 else 0
  }

  lemma {:induction false} MirroredCounts(cs: seq<SchemaChange>, ds: seq<SchemaChange>)
    requires Mirrored(cs, ds)
    ensures BreakingCount(cs) + BreakingCount(ds)
            == |cs| + Count(cs, (d: Detail) => d.TypeChanged?) - Count(cs, (d: Detail) => d.DefaultChanged?)
    decreases |cs|
  {
    if cs != [] {
      var k := |cs| - 1;
      MirroredCounts(cs[..k], ds[..k]);
    }
  }

  /** Comparing the other way round reports the same keys in the same order with added and removed,
      from and to, tightened and loosened exchanged; and together the two reports hold one breaking
      change per key, two for a type change and none for a mere default. */
  lemma MirrorLaw(a: Snapshot, b: Snapshot)
    ensures var cs, ds := Compare(a, b).schemaChanges, Compare(b, a).schemaChanges;
            && Mirrored(cs, ds)
            && BreakingCount(cs) + BreakingCount(ds)
               == |cs| + Count(cs, (d: Detail) => d.TypeChanged?) - Count(cs, (d: Detail) => d.DefaultChanged?)
  {
    hide TableChanges, Mirrored, CompareStatistics;
    var x, y := a.schema, b.schema;
    assert x.Keys + y.Keys == y.Keys + x.Keys;
    TableChangesMirror(SortedOf(x.Keys + y.Keys), x, y);
    MirroredCounts(CompareSchema(x, y), CompareSchema(y, x));
  }

  // ---- data drift ----

  predicate IsStatsDiff(d: ColumnDataChange, names: seq<string>, a: map<string, ColumnStats>, b: map<string, ColumnStats>) {
    && d.column in names && d.column in a && d.column in b && a[d.column] != b[d.column]
    && d.nullFrom == a[d.column].nullCount && d.nullTo == b[d.column].nullCount
    && d.nonNullFrom == a[d.column].nonNullCount && d.nonNullTo == b[d.column].nonNullCount
    && d.distinctFrom == a[d.column].distinctCount && d.distinctTo == b[d.column].distinctCount
    && (d.notable <==> 0 < d.nullFrom && d.nullTo < d.nullFrom)
  }

  predicate HasEntry(ds: seq<ColumnDataChange>, c: string) {
    exists i :: 0 <= i < |ds| && ds[i].column == c
  }

  ghost predicate ColumnsOrdered(ds: seq<ColumnDataChange>) {
    forall i, j :: 0 <= i < j < |ds| ==> Less(ds[i].column, ds[j].column)
  }

  lemma EntryAppend(ds: seq<ColumnDataChange>, d: ColumnDataChange, c: string)
    ensures HasEntry(ds + [d], c) <==> HasEntry(ds, c) || d.column == c
  {
    var es := ds + [d];
    if HasEntry(ds, c) {
      var i :| 0 <= i < |ds| && ds[i].column == c;
      assert es[i].column == c;
    }
    if d.column == c {
      assert es[|ds|].column == c;
    }
  }

  lemma StatsDiffTrue(n: string, names: seq<string>, a: map<string, ColumnStats>, b: map<string, ColumnStats>)
    requires n in names
    ensures StatsDiff(n, a, b).Some? <==> n in a && n in b && a[n] != b[n]
    ensures StatsDiff(n, a, b).Some? ==>
              StatsDiff(n, a, b).value.column == n && IsStatsDiff(StatsDiff(n, a, b).value, names, a, b)
  {
  }

  lemma EntriesAppend(ds: seq<ColumnDataChange>, d: ColumnDataChange)
    requires ColumnsOrdered(ds) && forall i :: 0 <= i < |ds| ==> Less(ds[i].column, d.column)
    ensures ColumnsOrdered(ds + [d])
    ensures forall c :: HasEntry(ds + [d], c) <==> HasEntry(ds, c) || d.column == c
  {
    hide Less, HasEntry;
    forall c ensures HasEntry(ds + [d], c) <==> HasEntry(ds, c) || d.column == c {
      EntryAppend(ds, d, c);
    }
  }

  lemma StatsDiffLonger(d: ColumnDataChange, names: seq<string>, n: string, a: map<string, ColumnStats>, b: map<string, ColumnStats>)
    requires Sorted(names + [n]) && IsStatsDiff(d, names, a, b)
    ensures IsStatsDiff(d, names + [n], a, b) && Less(d.column, n)
  {
    hide Less;
    var all := names + [n];
    var j :| 0 <= j < |names| && names[j] == d.column;
    assert all[j] == d.column && Less(all[j], all[|names|]);
  }

  lemma {:induction false} StatsChangesFacts(names: seq<string>, a: map<string, ColumnStats>, b: map<string, ColumnStats>)
    requires Sorted(names)
    ensures var ds := StatsChanges(names, a, b);
            && ColumnsOrdered(ds)
            && (forall i :: 0 <= i < |ds| ==> IsStatsDiff(ds[i], names, a, b))
            && (forall c :: c in names && c in a && c in b && a[c] != b[c] ==> HasEntry(ds, c))
    decreases |names|
  {
    hide HasEntry, Less, StatsDiff, ColumnsOrdered, IsStatsDiff;
    if names == [] {
      EntriesNone();
    } else {
      var k := |names| - 1;
      var n := names[k];
      var ds := StatsChanges(names[..k], a, b);
      StatsChangesFacts(names[..k], a, b);
      assert names == names[..k] + [n];
      StatsDiffTrue(n, names, a, b);
      forall i | 0 <= i < |ds| ensures Less(ds[i].column, n) && IsStatsDiff(ds[i], names, a, b) {
        StatsDiffLonger(ds[i], names[..k], n, a, b);
      }
      var d := StatsDiff(n, a, b);
      if d.Some? {
        EntriesAppend(ds, d.value);
      } else {
        assert ds + [] == ds;
      }
    }
  }

  lemma EntriesNone()
    ensures ColumnsOrdered([])
  {
  }

  /** An entry has the row counts of the sides that have the table (0 otherwise), says which side lacks
      it or was skipped, and lists the columns truly. */
  ghost predicate EntryTrue(d: DataChange, a: map<string, TableStatistics>, b: map<string, TableStatistics>) {
    && (d.table in a || d.table in b)
    && d.rowCountFrom == (if d.table in a then a[d.table].rowCount else 0)
    && d.rowCountTo == (if d.table in b then b[d.table].rowCount else 0)
    && (d.note == NewTable <==> d.table !in a)
    && (d.note == TableGone <==> d.table !in b)
    && (d.note == StatisticsSkipped <==> d.table in a && d.table in b && (a[d.table].skipped || b[d.table].skipped))
    && (d.note == NoNote <==> d.table in a && d.table in b && !a[d.table].skipped && !b[d.table].skipped)
    && ColumnsTrue(d, a, b)
  }

  /** The data report has one true entry per table of either side, in order; when both sides measured
      the table it lists exactly the shared columns whose numbers differ, in order, with the numbers. */
  lemma DataReport(a: Snapshot, b: Snapshot)
    ensures var ds, x, y := Compare(a, b).dataChanges, a.statistics, b.statistics;
            && (forall i, j :: 0 <= i < j < |ds| ==> Less(ds[i].table, ds[j].table))
            && (forall t :: t in x || t in y ==> exists i :: 0 <= i < |ds| && ds[i].table == t)
            && (forall i :: 0 <= i < |ds| ==> EntryTrue(ds[i], x, y))
  {
    hide CompareColumnStats, EntryTrue, Less, DataDiff, SortedOf, DataChanges, CompareSchema;
    var x, y := a.statistics, b.statistics;
    var names := SortedOf(x.Keys + y.Keys);
    var ds := Compare(a, b).dataChanges;
    forall i | 0 <= i < |ds| ensures ds[i].table == names[i] && EntryTrue(ds[i], x, y) {
      DataDiffTrue(names[i], x, y);
    }
    forall t | t in x || t in y ensures exists i :: 0 <= i < |ds| && ds[i].table == t {
      assert t in names;
      var i :| 0 <= i < |names| && names[i] == t;
      assert ds[i].table == t;
    }
  }

  lemma DataDiffTrue(t: string, a: map<string, TableStatistics>, b: map<string, TableStatistics>)
    requires t in a || t in b
    ensures DataDiff(t, a, b).table == t && EntryTrue(DataDiff(t, a, b), a, b)
  {
    hide CompareColumnStats, ColumnsTrue;
    DataDiffColumns(t, a, b);
  }

  ghost predicate ColumnsTrue(d: DataChange, a: map<string, TableStatistics>, b: map<string, TableStatistics>) {
    if d.table in a && d.table in b && !a[d.table].skipped && !b[d.table].skipped then
      var p, q := a[d.table].columns, b[d.table].columns;
      && ColumnsOrdered(d.columns)
      && (forall i :: 0 <= i < |d.columns| ==> IsStatsDiff(d.columns[i], SortedOf(p.Keys + q.Keys), p, q))
      && (forall c :: c in p && c in q && p[c] != q[c] ==> HasEntry(d.columns, c))
    else d.columns == []
  }

  lemma DataDiffColumns(t: string, a: map<string, TableStatistics>, b: map<string, TableStatistics>)
    requires t in a || t in b
    ensures ColumnsTrue(DataDiff(t, a, b), a, b)
  {
    hide IsStatsDiff, HasEntry, ColumnsOrdered, StatsChanges;
    if t in a && t in b && !a[t].skipped && !b[t].skipped {
      var names := SortedOf(a[t].columns.Keys + b[t].columns.Keys);
      StatsChangesFacts(names, a[t].columns, b[t].columns);
      assert forall c :: c in a[t].columns ==> c in names;
    }
  }

  /** A column both snapshots measured whose positive number of NULLs fell. */
  predicate NullsFell(a: map<string, TableStatistics>, b: map<string, TableStatistics>, t: string, c: string) {
    && t in a && t in b && !a[t].skipped && !b[t].skipped
    && c in a[t].columns && c in b[t].columns
    && 0 < a[t].columns[c].nullCount && b[t].columns[c].nullCount < a[t].columns[c].nullCount
  }

  ghost function NullsFellSet(a: map<string, TableStatistics>, b: map<string, TableStatistics>): set<(string, string)> {
    set t, c | t in a && c in a[t].columns && NullsFell(a, b, t, c) :: (t, c)
  }

  ghost function FellColumns(t: string, names: seq<string>, a: map<string, TableStatistics>, b: map<string, TableStatistics>)
    : set<(string, string)>
  {
    if names == [] then {}
    else
      var k := |names| - 1;
      FellColumns(t, names[..k], a, b) + if NullsFell(a, b, t, names[k]) then {(t, names[k])} else {}
  }

  lemma {:induction false} FellColumnsMembers(t: string, names: seq<string>, a: map<string, TableStatistics>, b: map<string, TableStatistics>)
    ensures forall u, c :: (u, c) in FellColumns(t, names, a, b) <==> u == t && c in names && NullsFell(a, b, t, c)
    decreases |names|
  {
    hide NullsFell;
    if names != [] {
      var k := |names| - 1;
      FellColumnsMembers(t, names[..k], a, b);
      assert names == names[..k] + [names[k]];
    }
  }

  lemma StatsDiffNotable(t: string, n: string, a: map<string, TableStatistics>, b: map<string, TableStatistics>)
    requires t in a && t in b && !a[t].skipped && !b[t].skipped
    ensures var d := StatsDiff(n, a[t].columns, b[t].columns);
            d.Some? && d.value.notable <==> NullsFell(a, b, t, n)
  {
  }

  lemma NotableAppend(cs: seq<ColumnDataChange>, d: Option<ColumnDataChange>)
    ensures NotableIn(cs + Listed(d)) == NotableIn(cs) + if d.Some? && d.value.notable then 1 else 0
  {
    if d.Some? {
      assert (cs + [d.value])[..|cs|] == cs;
    } else {
      assert cs + [] == cs;
    }
  }

  lemma FellColumnsSnoc(t: string, names: seq<string>, a: map<string, TableStatistics>, b: map<string, TableStatistics>)
    requires Sorted(names) && names != []
    ensures var k := |names| - 1;
            |FellColumns(t, names, a, b)|
            == |FellColumns(t, names[..k], a, b)| + if NullsFell(a, b, t, names[k]) then 1 else 0
  {
    hide NullsFell, Less;
    var k := |names| - 1;
    SortedDistinct(names);
    FellColumnsMembers(t, names[..k], a, b);
    assert names[k] !in names[..k];
    assert (t, names[k]) !in FellColumns(t, names[..k], a, b);
  }

  lemma {:induction false} NotableColumns(t: string, names: seq<string>, a: map<string, TableStatistics>, b: map<string, TableStatistics>)
    requires Sorted(names) && t in a && t in b && !a[t].skipped && !b[t].skipped
    ensures NotableIn(StatsChanges(names, a[t].columns, b[t].columns)) == |FellColumns(t, names, a, b)|
    decreases |names|
  {
    if names == [] {
      NotableNone();
    } else {
      hide NullsFell, StatsDiff, Less, NotableIn, FellColumns;
      var k := |names| - 1;
      var x, y := a[t].columns, b[t].columns;
      NotableColumns(t, names[..k], a, b);
      FellColumnsSnoc(t, names, a, b);
      NotableAppend(StatsChanges(names[..k], x, y), StatsDiff(names[k], x, y));
      StatsDiffNotable(t, names[k], a, b);
    }
  }

  lemma NotableNone()
    ensures NotableIn([]) == 0
  {
  }

  ghost function FellIn(t: string, a: map<string, TableStatistics>, b: map<string, TableStatistics>): set<(string, string)> {
    if t in a && t in b && !a[t].skipped && !b[t].skipped
    then FellColumns(t, SortedOf(a[t].columns.Keys + b[t].columns.Keys), a, b) else {}
  }

  lemma NotableTable(t: string, a: map<string, TableStatistics>, b: map<string, TableStatistics>)
    requires t in a || t in b
    ensures NotableIn(DataDiff(t, a, b).columns) == |FellIn(t, a, b)|
    ensures forall u, c :: (u, c) in FellIn(t, a, b) <==> u == t && NullsFell(a, b, t, c)
  {
    if t in a && t in b && !a[t].skipped && !b[t].skipped {
      var names := SortedOf(a[t].columns.Keys + b[t].columns.Keys);
      assert forall c :: NullsFell(a, b, t, c) ==> c in names;
      hide NullsFell, StatsChanges, FellColumns;
      NotableColumns(t, names, a, b);
      FellColumnsMembers(t, names, a, b);
    } else {
      NotableNone();
    }
  }

  ghost function FellTables(names: seq<string>, a: map<string, TableStatistics>, b: map<string, TableStatistics>): set<(string, string)> {
    if names == [] then {}
    else
      var k := |names| - 1;
      FellTables(names[..k], a, b) + FellIn(names[k], a, b)
  }

  lemma {:induction false} FellTablesMembers(names: seq<string>, a: map<string, TableStatistics>, b: map<string, TableStatistics>)
    requires forall i :: 0 <= i < |names| ==> names[i] in a || names[i] in b
    ensures forall t, c :: (t, c) in FellTables(names, a, b) <==> t in names && NullsFell(a, b, t, c)
    decreases |names|
  {
    hide NullsFell, DataDiff, FellIn, NotableIn;
    if names != [] {
      var k := |names| - 1;
      FellTablesMembers(names[..k], a, b);
      NotableTable(names[k], a, b);
      assert names == names[..k] + [names[k]];
    }
  }

  lemma FellApart(names: seq<string>, n: string, a: map<string, TableStatistics>, b: map<string, TableStatistics>)
    requires n !in names && (n in a || n in b)
    requires forall i :: 0 <= i < |names| ==> names[i] in a || names[i] in b
    ensures |FellTables(names, a, b) + FellIn(n, a, b)| == |FellTables(names, a, b)| + |FellIn(n, a, b)|
  {
    hide NullsFell, DataDiff, FellIn, FellTables, NotableIn;
    FellTablesMembers(names, a, b);
    NotableTable(n, a, b);
    forall p | p in FellIn(n, a, b) ensures p !in FellTables(names, a, b) {
      assert p == (p.0, p.1);
    }
  }

  lemma NotableDataNone()
    ensures NotableDataCount([]) == 0
  {
  }

  lemma NotableDataAppend(ds: seq<DataChange>, d: DataChange)
    ensures NotableDataCount(ds + [d]) == NotableDataCount(ds) + NotableIn(d.columns)
  {
    assert (ds + [d])[..|ds|] == ds;
  }

  lemma {:induction false} NotableTables(names: seq<string>, a: map<string, TableStatistics>, b: map<string, TableStatistics>)
    requires Sorted(names) && forall i :: 0 <= i < |names| ==> names[i] in a || names[i] in b
    ensures NotableDataCount(DataChanges(names, a, b)) == |FellTables(names, a, b)|
    decreases |names|
  {
    hide NullsFell, DataDiff, Less, FellIn, NotableIn, NotableDataCount;
    if names == [] {
      NotableDataNone();
    } else {
      var k := |names| - 1;
      NotableTables(names[..k], a, b);
      NotableTable(names[k], a, b);
      SortedDistinct(names);
      FellApart(names[..k], names[k], a, b);
      NotableDataAppend(DataChanges(names[..k], a, b), DataDiff(names[k], a, b));
    }
  }

  /** The notable count is the number of (table, column) pairs measured on both sides whose positive
      number of NULLs fell. */
  lemma NotableIsNullsFell(a: Snapshot, b: Snapshot)
    ensures NotableDataCount(Compare(a, b).dataChanges) == |NullsFellSet(a.statistics, b.statistics)|
  {
    var x, y := a.statistics, b.statistics;
    var names := SortedOf(x.Keys + y.Keys);
    NotableTables(names, x, y);
    FellTablesMembers(names, x, y);
    hide FellTables, SortedOf, DataChanges;
    forall p ensures p in NullsFellSet(x, y) <==> p in FellTables(names, x, y) {
      assert p == (p.0, p.1);
      assert (p.0, p.1) in FellTables(names, x, y) <==> p.0 in names && NullsFell(x, y, p.0, p.1);
    }
    assert NullsFellSet(x, y) == FellTables(names, x, y);
  }
}
