/** The WAL read loop as a value: what each received message does to the schema cache, the event
    counter, the acknowledged position and the lossy output queue (internal/listener). */
module ListenerSpec {
  import opened Seqs
  import opened Events

  datatype RelColumn = RelColumn(flags: nat, name: string, dataType: nat)

  /** kind is the tuple data byte: 'n' null, 'u' unchanged TOAST, 't' text, anything else is skipped. */
  datatype TupleColumn = TupleColumn(kind: char, data: string)

  datatype Tuple = NoTuple | Tuple(columns: seq<TupleColumn>)

  /** The logical replication messages of section 55.9 of the PostgreSQL 16 documentation. */
  datatype Message =
    | Begin | Commit | TypeMessage | OtherMessage
    | Relation(oid: nat, namespace: string, name: string, columns: seq<RelColumn>)
    | InsertMessage(oid: nat, newTuple: Tuple)
    | UpdateMessage(oid: nat, oldTuple: Tuple, newTuple: Tuple)
    | DeleteMessage(oid: nat, oldTuple: Tuple)
  {
    predicate IsDML() { InsertMessage? || UpdateMessage? || DeleteMessage? }
  }

  datatype TableMetadata = TableMetadata(schema: string, table: string, columns: seq<Column>)

  const OID_NAMES: map<nat, string> := map[
    16 := "bool", 20 := "int8", 21 := "int2", 23 := "int4", 25 := "text", 114 := "json",
    700 := "float4", 701 := "float8", 1043 := "varchar", 1082 := "date", 1114 := "timestamp",
    1184 := "timestamptz", 1700 := "numeric", 2950 := "uuid", 3802 := "jsonb"]

  function TypeName(oid: nat): string {
    if oid in OID_NAMES then OID_NAMES[oid] else "unknown"
  }

  function ColumnOf(rc: RelColumn): Column {
    Column(rc.name, TypeName(rc.dataType), rc.flags == 1)
  }

  function ColumnsOf(cols: seq<RelColumn>): seq<Column> {
    seq(|cols|, i requires 0 <= i < |cols| => ColumnOf(cols[i]))
  }

  function MetaOf(rel: Message): TableMetadata
    requires rel.Relation?
  {
    TableMetadata(rel.namespace, rel.name, ColumnsOf(rel.columns))
  }

  // ---- tuples ----

  predicate KnownKind(kind: char) { kind == 'n' || kind == 'u' || kind == 't' }

  function ValueOf(col: TupleColumn): Value
    requires KnownKind(col.kind)
  {
    if col.kind == 'n' then Null else if col.kind == 'u' then Text("[unchanged]") else Text(col.data)
  }

  /** The map built from the first k columns; columns beyond the metadata are ignored by the caller. */
  function RowMap(tuple: seq<TupleColumn>, cols: seq<Column>, k: nat): map<string, Value>
    requires k <= |tuple| && k <= |cols|
  {
    if k == 0 then map[]
    else
      var m := RowMap(tuple, cols, k - 1);
      if KnownKind(tuple[k - 1].kind) then m[cols[k - 1].name := ValueOf(tuple[k - 1])] else m
  }

  function RowOf(tuple: Tuple, cols: seq<Column>): RowImage {
    match tuple
    case NoTuple => NoRow
    case Tuple(columns) => Row(RowMap(columns, cols, Min(|columns|, |cols|)))
  }

  /** The decoded value of a name is that of the last column with that name and a known kind; with
      distinct column names that is the value sent at the column's own position. */
  lemma {:induction false} RowMapLast(tuple: seq<TupleColumn>, cols: seq<Column>, k: nat, i: nat)
    requires k <= |tuple| && k <= |cols| && i < k && KnownKind(tuple[i].kind)
    requires forall j :: i < j < k && KnownKind(tuple[j].kind) ==> cols[j].name != cols[i].name
    ensures cols[i].name in RowMap(tuple, cols, k)
    ensures RowMap(tuple, cols, k)[cols[i].name] == ValueOf(tuple[i])
    decreases k
  {
    if i < k - 1 {
      RowMapLast(tuple, cols, k - 1, i);
    }
  }

  /** Only columns actually sent get a value. */
  lemma {:induction false} RowMapOnly(tuple: seq<TupleColumn>, cols: seq<Column>, k: nat, name: string)
    requires k <= |tuple| && k <= |cols|
    ensures name in RowMap(tuple, cols, k) <==>
              exists i :: 0 <= i < k && KnownKind(tuple[i].kind) && cols[i].name == name
    decreases k
  {
    if k > 0 {
      RowMapOnly(tuple, cols, k - 1, name);
    }
  }

  predicate DistinctNames(cols: seq<Column>) {
    forall i, j :: 0 <= i < j < |cols| ==> cols[i].name != cols[j].name
  }

  /** What a row holds under a name, given what the tuple sent for it: SQL NULL, a marker for a value
      that was not sent again, the text itself, or nothing. */
  predicate ShowsColumn(m: map<string, Value>, name: string, sent: Option<TupleColumn>) {
    if sent.Some? && sent.value.kind == 'n' then name in m && m[name] == Null
    else if sent.Some? && sent.value.kind == 'u' then name in m && m[name] == Text("[unchanged]")
    else if sent.Some? && sent.value.kind == 't' then name in m && m[name] == Text(sent.value.data)
    else name !in m
  }

  /** The row is the tuple: column by column under the table's names, and no row for no tuple. */
  predicate ShowsTuple(row: RowImage, tuple: Tuple, cols: seq<Column>) {
    match tuple
    case NoTuple => row == NoRow
    case Tuple(columns) =>
      && row.Row?
      && (forall i :: 0 <= i < |cols| ==>
           ShowsColumn(row.values, cols[i].name, if i < |columns| then Some(columns[i]) else None))
      && (forall name :: name in row.values ==> exists i :: 0 <= i < |cols| && cols[i].name == name)
  }

  // ---- messages ----

  /** The event a DML message becomes, given the table's metadata. */
  function EventOf(msg: Message, meta: TableMetadata, id: nat, lsn: nat): Event
    requires msg.IsDML()
  {
    var row := (t: Tuple) => RowOf(t, meta.columns);
    match msg
    case InsertMessage(_, n) =>
      Event(id, KIND_NONE, lsn, Insert, meta.schema, meta.table, meta.columns, row(n), NoRow, "")
    case UpdateMessage(_, o, n) =>
      Event(id, KIND_NONE, lsn, Update, meta.schema, meta.table, meta.columns, row(n), row(o), "")
    case DeleteMessage(_, o) =>
      Event(id, KIND_NONE, lsn, Delete, meta.schema, meta.table, meta.columns, NoRow, row(o), "")
  }

  // ---- the loop ----

  /** What ReceiveMessage yields: a timeout, an error, or a message already split into its parts. */
  datatype Raw =
    | RecvTimeout | RecvError(cancelled: bool) | ServerError | OtherRaw | OtherCopy
    | Keepalive(parsed: bool, replyRequested: bool)
    | BadXLog | XLog(walStart: nat, msg: Option<Message>)

  /** One iteration: whether the ack timer fired, whether the two possible status sends succeed, how
      many events the forwarder has taken from the queue by the time of the send, and the message. */
  datatype Turn = Turn(due: bool, dueSent: bool, replySent: bool, drained: nat, raw: Raw)

  datatype Status = Running | Clean | SendFailed | ReceiveFailed | ParseFailed | ServerFailed

  /** A standby status update: the position sent, and how many messages had been handled by then. */
  datatype Ack = Ack(at: nat, lsn: nat)

  datatype Loop = Loop(
    cache: map<nat, TableMetadata>, counter: nat, pos: nat,
    queue: seq<Event>, taken: seq<Event>, dropped: seq<Event>,
    acks: seq<Ack>, seen: nat, status: Status)

  function Start(counter: nat, startLSN: nat): Loop {
    Loop(map[], counter, startLSN, [], [], [], [], 0, Running)
  }

  function Acknowledge(s: Loop, ok: bool): Loop {
    if ok then s.(acks := s.acks + [Ack(s.seen, s.pos)]) else s.(status := SendFailed)
  }

  /** The forwarder's receives that happen before this send. */
  function Drain(s: Loop, n: nat): Loop {
    var k := Min(n, |s.queue|);
    s.(taken := s.taken + s.queue[..k], queue := s.queue[k..])
  }

  /** The lossy send on the output channel. */
  function Emit(s: Loop, e: Event, capacity: nat): Loop {
    if |s.queue| < capacity then s.(queue := s.queue + [e]) else s.(dropped := s.dropped + [e])
  }

  function Advance(s: Loop, walStart: nat): Loop {
    if walStart > s.pos then s.(pos := walStart) else s
  }

  /** A parsed WAL message: cache update, decoding, lossy enqueue, then the position. */
  function Logical(s: Loop, walStart: nat, msg: Message, capacity: nat): Loop {
    if msg.Relation? then Advance(s.(cache := s.cache[msg.oid := MetaOf(msg)]), walStart)
    else if !msg.IsDML() then Advance(s, walStart)
    else if msg.oid !in s.cache then s
    else
      var id := (s.counter + 1) % UINT64;
      Advance(Emit(s.(counter := id), EventOf(msg, s.cache[msg.oid], id, walStart), capacity), walStart)
  }

  function Receive(s: Loop, t: Turn, capacity: nat): Loop {
    match t.raw
    case RecvTimeout => Acknowledge(s, t.replySent)
    case RecvError(cancelled) => s.(status := if cancelled then Clean else ReceiveFailed)
    case ServerError => s.(status := ServerFailed)
    case OtherRaw => s
    case OtherCopy => s
    case Keepalive(parsed, reply) =>
      if !parsed then s.(status := ParseFailed) else if reply then Acknowledge(s, t.replySent) else s
    case BadXLog => s.(status := ParseFailed)
    case XLog(walStart, msg) =>
      if msg.None? then s else Logical(Drain(s, t.drained), walStart, msg.value, capacity)
  }

  function Seen(s: Loop): Loop {
    s.(seen := s.seen + 1)
  }

  function Iterate(s: Loop, t: Turn, capacity: nat): Loop {
    if s.status != Running then s
    else
      var a := if t.due then Acknowledge(s, t.dueSent) else s;
      if a.status != Running then a
      else
        Seen(Receive(a, t, capacity))
  }

  function RunLoop(s: Loop, ts: seq<Turn>, capacity: nat): Loop {
    if ts == [] then s
    else Iterate(RunLoop(s, ts[..|ts| - 1], capacity), ts[|ts| - 1], capacity)
  }
}
