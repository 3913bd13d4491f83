/** Feed items and subscription filters (internal/store/event.go, internal/store/store.go). */
module Events {

  /** The range of the 64-bit counters: event IDs, pushes, client drops. */
  const UINT64: nat := 0x1_0000_0000_0000_0000

  datatype Column = Column(name: string, dataType: string, isKey: bool)

  datatype EventType = NoType | Insert | Update | Delete

  /** A decoded column value: SQL NULL, or the text sent (or substituted) for it. */
  datatype Value = Null | Text(text: string)

  datatype RowImage = NoRow | Row(values: map<string, Value>)

  const KIND_NONE: string := ""
  const KIND_EVENT: string := "event"
  const KIND_MARKER: string := "marker"

  /** One item of the feed. `text` stands for the marker, log and DDL payload fields. */
  datatype Event = Event(
    id: nat, kind: string, lsn: nat, typ: EventType, schema: string, table: string,
    columns: seq<Column>, newValues: RowImage, oldValues: RowImage, text: string)
  {
    predicate IsMarker() { kind == KIND_MARKER }
    predicate IsDBEvent() { kind == KIND_NONE || kind == KIND_EVENT }
  }

  const ZERO_EVENT: Event := Event(0, "", 0, NoType, "", "", [], NoRow, NoRow, "")

  datatype Filter = AllowAll | TableFilter(tables: seq<string>)
  {
    predicate Match(e: Event) {
      match this
      case AllowAll => true
      case TableFilter(tables) => e.table in tables
    }
  }

  /** The linear scan of TableFilter.Match. */
  method MatchTables(tables: seq<string>, e: Event) returns (ok: bool)
    ensures ok <==> exists i :: 0 <= i < |tables| && tables[i] == e.table
    ensures ok <==> TableFilter(tables).Match(e)
  {
    for i := 0 to |tables|
      invariant e.table !in tables[..i]
    {
      if tables[i] == e.table {
        return true;
      }
    }
    return false;
  }

  method Matches(f: Filter, e: Event) returns (ok: bool)
    ensures f.AllowAll? ==> ok
    ensures f.TableFilter? ==> (ok <==> e.table in f.tables)
    ensures ok <==> f.Match(e)
  {
    match f
    case AllowAll => ok := true;
    case TableFilter(tables) => ok := MatchTables(tables, e);
  }
}
