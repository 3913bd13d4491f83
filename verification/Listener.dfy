/** The decoder, the schema cache and the read loop as internal/listener writes them, proved against
    ListenerSpec. Received messages, timers and send results are inputs. */
module Listeners {
  import opened Seqs
  import opened Events
  import opened Channels
  import opened ListenerSpec
  import Laws = ListenerLaws

  class SchemaCache {
    var tables: map<nat, TableMetadata>

    constructor ()
      ensures tables == map[]
    {
      tables := map[];
    }

    /** Update overwrites the relation's entry with freshly built columns. */
    method Update(rel: Message)
      requires rel.Relation?
      modifies this
      ensures tables == old(tables)[rel.oid := MetaOf(rel)]
      ensures var meta := tables[rel.oid];
              && meta.schema == rel.namespace && meta.table == rel.name && |meta.columns| == |rel.columns|
              && forall i :: 0 <= i < |rel.columns| ==>
                   meta.columns[i] == Column(rel.columns[i].name,
                     if rel.columns[i].dataType in OID_NAMES then OID_NAMES[rel.columns[i].dataType] else "unknown",
                     rel.columns[i].flags == 1)
    {
      var cols := new Column[|rel.columns|];
      for i := 0 to |rel.columns|
        invariant tables == old(tables)
        invariant forall j :: 0 <= j < i ==> cols[j] == ColumnOf(rel.columns[j])
      {
        var rc := rel.columns[i];
        var typeName := "unknown";
        if rc.dataType in OID_NAMES {
          typeName := OID_NAMES[rc.dataType];
        }
        cols[i] := Column(rc.name, typeName, rc.flags == 1);
      }
      var columns := cols[..];
      assert columns == ColumnsOf(rel.columns);
      assert TableMetadata(rel.namespace, rel.name, columns) == MetaOf(rel);
      tables := tables[rel.oid := TableMetadata(rel.namespace, rel.name, columns)];
    }

    method Get(oid: nat) returns (meta: Option<TableMetadata>)
      ensures meta == if oid in tables then Some(tables[oid]) else None
    {
      if oid in tables {
        meta := Some(tables[oid]);
      } else {
        meta := None;
      }
    }
  }

  /** The process-wide 64-bit event counter. */
  class EventCounter {
    var value: nat

    method Add() returns (id: nat)
      modifies this
      ensures value == id == (old(value) + 1) % UINT64
    {
      value := (value + 1) % UINT64;
      id := value;
    }
  }

  datatype Decoded = Nothing | UnknownRelation(oid: nat) | Decoded(event: Event)

  /** decodeTuple stops at the first column beyond the metadata; a later column of the same name wins. */
  method DecodeTuple(tuple: Tuple, cols: seq<Column>) returns (row: RowImage)
    ensures row == RowOf(tuple, cols)
    ensures DistinctNames(cols) ==> ShowsTuple(row, tuple, cols)
  {
    if DistinctNames(cols) {
      Laws.RowShows(tuple, cols);
    }
    hide ShowsTuple, DistinctNames;
    match tuple {
      case NoTuple => row := NoRow;
      case Tuple(columns) =>
        var result: map<string, Value> := map[];
        var i := 0;
        while i < |columns|
          invariant 0 <= i <= |columns| && i <= |cols|
          invariant result == RowMap(columns, cols, i)
        {
          if i >= |cols| {
            break;
          }
          var name := cols[i].name;
          if columns[i].kind == 'n' {
            result := result[name := Null];
          } else if columns[i].kind == 'u' {
            result := result[name := Text("[unchanged]")];
          } else if columns[i].kind == 't' {
            result := result[name := Text(columns[i].data)];
          }
          i := i + 1;
        }
        row := Row(result);
    }
  }

  lemma NoTupleShows(cols: seq<Column>)
    ensures RowOf(NoTuple, cols) == NoRow && ShowsTuple(NoRow, NoTuple, cols)
  {
  }

  /** The event's own account of a change: which rows it shows, and under which table. */
  predicate Holds(e: Event, msg: Message, meta: TableMetadata) {
    && e.schema == meta.schema && e.table == meta.table && e.columns == meta.columns
    && match msg
       case InsertMessage(_, n) =>
         e.typ == Insert && e.oldValues == NoRow && (DistinctNames(meta.columns) ==> ShowsTuple(e.newValues, n, meta.columns))
       case UpdateMessage(_, o, n) =>
         e.typ == Update && (DistinctNames(meta.columns) ==>
           ShowsTuple(e.newValues, n, meta.columns) && ShowsTuple(e.oldValues, o, meta.columns))
       case DeleteMessage(_, o) =>
         e.typ == Delete && e.newValues == NoRow && (DistinctNames(meta.columns) ==> ShowsTuple(e.oldValues, o, meta.columns))
       case _ => false
  }

  method NewEvent(counter: EventCounter, typ: EventType, meta: TableMetadata, newValues: RowImage, oldValues: RowImage)
    returns (e: Event)
    modifies counter
    ensures counter.value == (old(counter.value) + 1) % UINT64
    ensures e == Event(counter.value, KIND_NONE, 0, typ, meta.schema, meta.table, meta.columns, newValues, oldValues, "")
  {
    var id := counter.Add();
    e := Event(id, KIND_NONE, 0, typ, meta.schema, meta.table, meta.columns, newValues, oldValues, "");
  }

  /** DecodeMessage: an event for a DML message of a cached relation, an error for an uncached one,
      nothing for the rest. Only an event consumes an ID. The new tuple becomes the new values and the
      old tuple the old values. */
  method DecodeMessage(msg: Message, cache: SchemaCache, counter: EventCounter) returns (r: Decoded)
    modifies counter
    ensures !msg.IsDML() ==> r == Nothing
    ensures msg.IsDML() && msg.oid !in cache.tables ==> r == UnknownRelation(msg.oid)
    ensures msg.IsDML() && msg.oid in cache.tables ==>
              r == Decoded(EventOf(msg, cache.tables[msg.oid], counter.value, 0))
    ensures counter.value == if r.Decoded? then (old(counter.value) + 1) % UINT64 else old(counter.value)
    ensures r.Decoded? <==> Laws.IsChange(msg) && msg.oid in cache.tables
    ensures r.UnknownRelation? <==> Laws.IsChange(msg) && msg.oid !in cache.tables
    ensures r.Decoded? ==> Holds(r.event, msg, cache.tables[msg.oid])
  {
    hide RowOf, ShowsTuple, DistinctNames;
    r := Nothing;
    match msg {
      case InsertMessage(oid, newTuple) =>
        var meta := cache.Get(oid);
        if meta.None? { return UnknownRelation(oid); }
        var newVals := DecodeTuple(newTuple, meta.value.columns);
        var e := NewEvent(counter, Insert, meta.value, newVals, NoRow);
        r := Decoded(e);
      case UpdateMessage(oid, oldTuple, newTuple) =>
        var meta := cache.Get(oid);
        if meta.None? { return UnknownRelation(oid); }
        var newVals := DecodeTuple(newTuple, meta.value.columns);
        var oldVals := NoRow;
        NoTupleShows(meta.value.columns);
        if oldTuple.Tuple? {
          oldVals := DecodeTuple(oldTuple, meta.value.columns);
        }
        var e := NewEvent(counter, Update, meta.value, newVals, oldVals);
        r := Decoded(e);
      case DeleteMessage(oid, oldTuple) =>
        var meta := cache.Get(oid);
        if meta.None? { return UnknownRelation(oid); }
        var oldVals := DecodeTuple(oldTuple, meta.value.columns);
        var e := NewEvent(counter, Delete, meta.value, NoRow, oldVals);
        r := Decoded(e);
      case _ =>
    }
  }

  class Listener {
    const out: Channel<Event>
    const counter: EventCounter

    /** The loop as a value: the specification state after the turns so far. */
    ghost var abs: Loop

    constructor (out: Channel<Event>, counter: EventCounter)
      ensures this.out == out && this.counter == counter
    {
      this.out := out;
      this.counter := counter;
      abs := Start(0, 0);
    }

    ghost predicate Matches(cache: SchemaCache, pos: nat, acks: seq<nat>)
      reads this, out, counter, cache
    {
      && cache.tables == abs.cache && counter.value == abs.counter
      && out.queue == abs.queue && !out.closed
      && pos == abs.pos
      && acks == Lsns(abs.acks)
    }

    /** The forwarder's receives between two sends of the loop. */
    method ForwarderTakes(n: nat)
      requires out.queue == abs.queue
      modifies out`queue, this`abs
      ensures out.queue == abs.queue && abs == Drain(old(abs), n)
    {
      var k := 0;
      while k < n && out.queue != []
        invariant abs == old(abs)
        invariant k <= n && k <= |old(out.queue)| && out.queue == old(out.queue)[k..]
      {
        var _ := out.TryReceive();
        k := k + 1;
      }
      assert |out.queue| == |abs.queue| - k;
      abs := Drain(abs, n);
    }

    /** One parsed WAL message through the loop. */
    method HandleLogical(cache: SchemaCache, walStart: nat, msg: Message, clientXLogPos: nat, ghost acks: seq<nat>)
      returns (pos: nat)
      requires Matches(cache, clientXLogPos, acks)
      modifies cache, counter, out`queue, this`abs
      ensures abs == Logical(old(abs), walStart, msg, out.capacity)
      ensures Matches(cache, pos, acks)
    {
      pos := clientXLogPos;
      ghost var was := abs;
      if msg.Relation? {
        cache.Update(msg);
      }
      var r := DecodeMessage(msg, cache, counter);
      abs := Logical(abs, walStart, msg, out.capacity);
      if r.UnknownRelation? {
        return;
      }
      if r.Decoded? {
        var event := r.event.(lsn := walStart);
        assert event == EventOf(msg, was.cache[msg.oid], counter.value, walStart);
        var _ := out.TrySend(event);
      }
      if walStart > pos {
        pos := walStart;
      }
    }

    /** One received message, of whatever kind: what it does to the loop, and how it can end it. */
    method HandleRaw(cache: SchemaCache, t: Turn, clientXLogPos: nat, sent: seq<nat>)
      returns (status: Status, pos: nat, acks: seq<nat>)
      requires Matches(cache, clientXLogPos, sent) && abs.status == Running
      modifies cache, counter, out`queue, this`abs
      ensures abs == Seen(Receive(old(abs), t, out.capacity))
      ensures Matches(cache, pos, acks) && status == abs.status
    {
      hide Logical;
      status, pos, acks := Running, clientXLogPos, sent;
      match t.raw {
        case RecvTimeout =>
          abs := Seen(Receive(abs, t, out.capacity));
          if t.replySent { acks := sent + [pos]; } else { status := SendFailed; }
        case RecvError(cancelled) =>
          abs := Seen(Receive(abs, t, out.capacity));
          status := if cancelled then Clean else ReceiveFailed;
        case ServerError =>
          abs := Seen(Receive(abs, t, out.capacity));
          status := ServerFailed;
        case Keepalive(parsed, replyRequested) =>
          abs := Seen(Receive(abs, t, out.capacity));
          if !parsed {
            status := ParseFailed;
          } else if replyRequested {
            if t.replySent { acks := sent + [pos]; } else { status := SendFailed; }
          }
        case BadXLog =>
          abs := Seen(Receive(abs, t, out.capacity));
          status := ParseFailed;
        case XLog(walStart, msg) =>
          if msg.Some? {
            ForwarderTakes(t.drained);
            pos := HandleLogical(cache, walStart, msg.value, pos, acks);
            LogicalStatus(Drain(old(abs), t.drained), walStart, msg.value, out.capacity);
          }
          abs := Seen(abs);
        case OtherRaw =>
          abs := Seen(abs);
        case OtherCopy =>
          abs := Seen(abs);
      }
    }

    /** readLoop over the turns received so far; acks are the positions it sent. */
    method ReadLoop(cache: SchemaCache, startLSN: nat, turns: seq<Turn>) returns (status: Status, acks: seq<nat>)
      requires cache.tables == map[] && out.queue == [] && !out.closed
      modifies cache, counter, out, this
      ensures abs == RunLoop(Start(old(counter.value), startLSN), turns, out.capacity)
      ensures status == abs.status && acks == Lsns(abs.acks) && out.queue == abs.queue
    {
      hide Receive;
      var clientXLogPos := startLSN;
      acks := [];
      status := Running;
      ghost var init := Start(counter.value, startLSN);
      abs := init;
      for i := 0 to |turns|
        invariant abs == RunLoop(init, turns[..i], out.capacity) && abs.status == Running == status
        invariant Matches(cache, clientXLogPos, acks)
      {
        var t := turns[i];
        assert turns[..i + 1][..i] == turns[..i];
        RunStops(init, turns, i + 1, out.capacity);
        if t.due {
          if !t.dueSent {
            abs := Acknowledge(abs, false);
            return SendFailed, acks;
          }
          acks := acks + [clientXLogPos];
          abs := Acknowledge(abs, true);
        }
        status, clientXLogPos, acks := HandleRaw(cache, t, clientXLogPos, acks);
        if status != Running {
          return;
        }
      }
      assert turns[..|turns|] == turns;
    }
  }

  lemma LogicalStatus(s: Loop, walStart: nat, msg: Message, capacity: nat)
    ensures Logical(s, walStart, msg, capacity).status == s.status
    ensures Logical(s, walStart, msg, capacity).acks == s.acks
  {
  }

  function Lsns(acks: seq<Ack>): seq<nat> {
    seq(|acks|, i requires 0 <= i < |acks| => acks[i].lsn)
  }

  /** Once the loop has returned, later turns change nothing. */
  lemma {:induction false} RunStops(s: Loop, ts: seq<Turn>, n: nat, capacity: nat)
    requires n <= |ts|
    ensures RunLoop(s, ts[..n], capacity).status != Running ==> RunLoop(s, ts, capacity) == RunLoop(s, ts[..n], capacity)
    decreases |ts|
  {
    if n == |ts| {
      assert ts[..n] == ts;
    } else {
      var k := |ts| - 1;
      RunStops(s, ts[..k], n, capacity);
      assert ts[..k][..n] == ts[..n];
    }
  }
}
