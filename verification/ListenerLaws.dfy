/** What the read loop does with each kind of message, said of the messages themselves: what the event
    holds, when an acknowledgement is sent, and what ends the loop. */
module ListenerLaws {
  import opened Seqs
  import opened Events
  import opened ListenerSpec
  import opened ListenerProps

  // ---- decoded rows ----

  lemma RowShows(tuple: Tuple, cols: seq<Column>)
    requires DistinctNames(cols)
    ensures ShowsTuple(RowOf(tuple, cols), tuple, cols)
  {
    match tuple
    case NoTuple =>
    case Tuple(columns) =>
      var n := Min(|columns|, |cols|);
      var m := RowMap(columns, cols, n);
      forall i | 0 <= i < |cols|
        ensures ShowsColumn(m, cols[i].name, if i < |columns| then Some(columns[i]) else None)
      {
        RowMapOnly(columns, cols, n, cols[i].name);
        if i < n && KnownKind(columns[i].kind) {
          RowMapLast(columns, cols, n, i);
        }
      }
      forall name | name in m ensures exists i :: 0 <= i < |cols| && cols[i].name == name {
        RowMapOnly(columns, cols, n, name);
      }
  }

  /** The event that a DML message becomes under a Relation message. */
  ghost predicate Describes(e: Event, msg: Message, rel: Message, walStart: nat)
    requires rel.Relation?
  {
    && e.kind == "" && e.lsn == walStart && e.schema == rel.namespace && e.table == rel.name
    && |e.columns| == |rel.columns|
    && (forall i :: 0 <= i < |e.columns| ==>
         && e.columns[i].name == rel.columns[i].name
         && (e.columns[i].isKey <==> rel.columns[i].flags == 1)
         && e.columns[i].dataType
            == (if rel.columns[i].dataType in OID_NAMES then OID_NAMES[rel.columns[i].dataType] else "unknown"))
    && match msg
       case InsertMessage(_, n) =>
         e.typ == Insert && e.oldValues == NoRow
         && (DistinctNames(e.columns) ==> ShowsTuple(e.newValues, n, e.columns))
       case UpdateMessage(_, o, n) =>
         e.typ == Update
         && (DistinctNames(e.columns) ==>
              ShowsTuple(e.newValues, n, e.columns) && ShowsTuple(e.oldValues, o, e.columns))
       case DeleteMessage(_, o) =>
         e.typ == Delete && e.newValues == NoRow
         && (DistinctNames(e.columns) ==> ShowsTuple(e.oldValues, o, e.columns))
       case _ => false
  }

  predicate IsChange(msg: Message) {
    msg.InsertMessage? || msg.UpdateMessage? || msg.DeleteMessage?
  }

  lemma EventDescribes(msg: Message, rel: Message, id: nat, walStart: nat)
    requires rel.Relation? && IsChange(msg)
    ensures Describes(EventOf(msg, MetaOf(rel), id, walStart), msg, rel, walStart)
  {
    hide RowOf, ShowsTuple, DistinctNames;
    var cols := MetaOf(rel).columns;
    if DistinctNames(cols) {
      if !msg.DeleteMessage? {
        RowShows(msg.newTuple, cols);
      }
      if !msg.InsertMessage? {
        RowShows(msg.oldTuple, cols);
      }
    }
  }

  /** ts[k] describes the relation oid, and no later message does. */
  predicate DescribedAt(ts: seq<Turn>, oid: nat, k: nat) {
    && k < |ts| && RelationOf(ts[k], oid)
    && forall j :: k < j < |ts| ==> !RelationOf(ts[j], oid)
  }

  predicate RelationOf(t: Turn, oid: nat) {
    t.raw.XLog? && t.raw.msg.Some? && t.raw.msg.value.Relation? && t.raw.msg.value.oid == oid
  }

  lemma {:induction false} LatestAt(ts: seq<Turn>, oid: nat, k: nat)
    requires DescribedAt(ts, oid, k)
    ensures Latest(ts, oid) == ts[k].raw.msg
    decreases |ts|
  {
    var n := |ts| - 1;
    if k < n {
      assert !RelationOf(ts[n], oid);
      LatestAt(ts[..n], oid, k);
    }
  }

  lemma {:induction false} LatestNone(ts: seq<Turn>, oid: nat)
    requires forall j :: 0 <= j < |ts| ==> !RelationOf(ts[j], oid)
    ensures Latest(ts, oid) == None
    decreases |ts|
  {
    if ts != [] {
      LatestNone(ts[..|ts| - 1], oid);
    }
  }

  /** The room in the output channel when a message is handled: the forwarder has taken some by then. */
  function Waiting(s: Loop, t: Turn): nat {
    Max(0, |s.queue| - t.drained)
  }

  lemma RoomEffect(s: Loop, t: Turn, capacity: nat)
    requires t.raw.XLog? && t.raw.msg.Some?
    ensures var r := Receive(s, t, capacity);
            && (r.dropped != s.dropped ==> capacity <= Waiting(s, t))
            && (capacity <= Waiting(s, t) ==> |r.taken| + |r.queue| == |s.taken| + |s.queue|)
  {
    hide EventOf, MetaOf;
  }

  lemma IterateChange(s: Loop, ts: seq<Turn>, t: Turn, capacity: nat, k: nat)
    requires CacheIsLatest(s.cache, ts) && s.status == Running && (t.due ==> t.dueSent)
    requires t.raw.XLog? && t.raw.msg.Some? && IsChange(t.raw.msg.value)
    requires DescribedAt(ts, t.raw.msg.value.oid, k)
    ensures var r := Iterate(s, t, capacity);
            exists e ::
              && Describes(e, t.raw.msg.value, ts[k].raw.msg.value, t.raw.walStart)
              && r.counter == e.id == (s.counter + 1) % UINT64
              && if Waiting(s, t) < capacity
                 then r.taken + r.queue == s.taken + s.queue + [e] && r.dropped == s.dropped
                 else r.taken + r.queue == s.taken + s.queue && r.dropped == s.dropped + [e]
  {
    hide Latest, MetaAt, Describes, MetaOf, EventOf, CacheIsLatest, Receive;
    var msg := t.raw.msg.value;
    var r := Iterate(s, t, capacity);
    LatestAt(ts, msg.oid, k);
    LatestIsRelation(ts, msg.oid);
    assert Decodable(ts, t) == Some(msg);
    IterateEffect(s, ts, t, capacity);
    var e := EventAt(ts, t, r.counter);
    EventIs(ts, t, r.counter, k);
    EventDescribes(msg, ts[k].raw.msg.value, r.counter, t.raw.walStart);
    RoomEffect(if t.due then Acknowledge(s, t.dueSent) else s, t, capacity);
    assert |s.taken + s.queue + [e]| == |s.taken| + |s.queue| + 1 && |s.dropped + [e]| == |s.dropped| + 1;
  }

  /** An insert, update or delete whose relation the stream has described becomes one event: it takes
      the next ID, carries the latest description, the new values of the new tuple and the old values of
      the old one, and is enqueued unless the channel is full. */
  lemma ChangeLaw(ts: seq<Turn>, t: Turn, capacity: nat, counter: nat, start: nat, k: nat)
    requires counter < UINT64
    requires t.raw.XLog? && t.raw.msg.Some? && IsChange(t.raw.msg.value)
    requires DescribedAt(ts, t.raw.msg.value.oid, k)
    ensures var s := RunLoop(Start(counter, start), ts, capacity);
            var r := RunLoop(Start(counter, start), ts + [t], capacity);
            s.status == Running && (t.due ==> t.dueSent) ==>
              exists e ::
                && Describes(e, t.raw.msg.value, ts[k].raw.msg.value, t.raw.walStart)
                && r.counter == e.id == (s.counter + 1) % UINT64
                && if Waiting(s, t) < capacity
                   then r.taken + r.queue == s.taken + s.queue + [e] && r.dropped == s.dropped
                   else r.taken + r.queue == s.taken + s.queue && r.dropped == s.dropped + [e]
  {
    hide Describes, Iterate, Shuffle, IsHighest, CacheIsLatest, AcksTrack, Offered;
    assert (ts + [t])[..|ts|] == ts;
    var s := RunLoop(Start(counter, start), ts, capacity);
    if s.status == Running && (t.due ==> t.dueSent) {
      RunKeeps(ts, capacity, counter, start);
      assert ts[..s.seen] == ts;
      IterateChange(s, ts, t, capacity, k);
    }
  }

  lemma EventIs(ts: seq<Turn>, t: Turn, id: nat, k: nat)
    requires Decodable(ts, t).Some? && DescribedAt(ts, Decodable(ts, t).value.oid, k)
    ensures EventAt(ts, t, id) == EventOf(t.raw.msg.value, MetaOf(ts[k].raw.msg.value), id, t.raw.walStart)
  {
    LatestAt(ts, t.raw.msg.value.oid, k);
  }

  /** A change of a relation the stream has not described, and every message that is no change, emits
      nothing and takes no ID. */
  lemma SilentLaw(ts: seq<Turn>, t: Turn, capacity: nat, counter: nat, start: nat)
    requires counter < UINT64
    requires (t.raw.XLog? && t.raw.msg.Some? && IsChange(t.raw.msg.value)) ==>
               forall j :: 0 <= j < |ts| ==> !RelationOf(ts[j], t.raw.msg.value.oid)
    ensures var s := RunLoop(Start(counter, start), ts, capacity);
            var r := RunLoop(Start(counter, start), ts + [t], capacity);
            r.counter == s.counter && r.taken + r.queue == s.taken + s.queue && r.dropped == s.dropped
  {
    hide Latest, MetaAt, RunLoop;
    if t.raw.XLog? && t.raw.msg.Some? && IsChange(t.raw.msg.value) {
      LatestNone(ts, t.raw.msg.value.oid);
    }
    assert Decodable(ts, t) == None;
    TurnEffect(ts, t, capacity, counter, start);
  }

  // ---- acknowledgements and the end of the loop ----

  /** The status updates a turn tries to send, until one fails. */
  function Attempts(t: Turn): seq<bool> {
    if t.due && !t.dueSent then [false]
    else
      (if t.due then [true] else [])
      + (if t.raw.RecvTimeout? || (t.raw.Keepalive? && t.raw.parsed && t.raw.replyRequested) then [t.replySent] else [])
  }

  /** How a turn ends the loop, or Running. */
  function Ending(t: Turn): Status {
    if false in Attempts(t) then SendFailed
    else if t.raw.RecvError? then (if t.raw.cancelled then Clean else ReceiveFailed)
    else if t.raw.ServerError? then ServerFailed
    else if t.raw.BadXLog? || (t.raw.Keepalive? && !t.raw.parsed) then ParseFailed
    else Running
  }

  /** The first turn that ends the loop decides its status. */
  function EndOf(ts: seq<Turn>): Status {
    if ts == [] then Running
    else
      var k := |ts| - 1;
      if EndOf(ts[..k]) != Running then EndOf(ts[..k]) else Ending(ts[k])
  }

  function Successes(bs: seq<bool>): nat {
    if bs == [] then 0 else Successes(bs[1..]) + if bs[0] then 1 else 0
  }

  /** The message count at each acknowledgement: a turn's successful sends happen before its message
      is counted. */
  function AckTimes(ts: seq<Turn>): seq<nat> {
    if ts == [] then []
    else
      var k := |ts| - 1;
      AckTimes(ts[..k])
      + if EndOf(ts[..k]) != Running then [] else seq(Successes(Attempts(ts[k])), _ => k)
  }

  function Times(acks: seq<Ack>): seq<nat> {
    seq(|acks|, i requires 0 <= i < |acks| => acks[i].at)
  }

  lemma LogicalQuiet(s: Loop, walStart: nat, msg: Message, capacity: nat)
    ensures var r := Logical(s, walStart, msg, capacity);
            r.seen == s.seen && r.status == s.status && r.acks == s.acks
  {
    hide EventOf, MetaOf;
  }

  lemma ReceiveAcks(s: Loop, t: Turn, capacity: nat)
    requires s.status == Running
    ensures var r := Receive(s, t, capacity);
            && r.seen == s.seen
            && (if t.raw.RecvTimeout? || (t.raw.Keepalive? && t.raw.parsed && t.raw.replyRequested)
                then r.acks == (if t.replySent then s.acks + [Ack(s.seen, s.pos)] else s.acks)
                     && r.status == (if t.replySent then Running else SendFailed)
                else r.acks == s.acks
                     && r.status == (match t.raw
                                     case RecvError(cancelled) => if cancelled then Clean else ReceiveFailed
                                     case ServerError => ServerFailed
                                     case BadXLog => ParseFailed
                                     case Keepalive(parsed, _) => if parsed then Running else ParseFailed
                                     case _ => Running))
  {
    hide Logical;
    if t.raw.XLog? && t.raw.msg.Some? {
      LogicalQuiet(Drain(s, t.drained), t.raw.walStart, t.raw.msg.value, capacity);
    }
  }

  lemma TimesOne(acks: seq<Ack>, a: Ack)
    ensures Times(acks + [a]) == Times(acks) + [a.at]
  {
  }

  lemma TurnAcks(s: Loop, t: Turn, capacity: nat)
    requires s.status == Running
    ensures var r := Iterate(s, t, capacity);
            && r.status == Ending(t)
            && Times(r.acks) == Times(s.acks) + seq(Successes(Attempts(t)), _ => s.seen)
            && (r.status == Running ==> r.seen == s.seen + 1)
  {
    hide Receive, Times, Successes;
    SuccessesOf(t);
    var a := if t.due then Acknowledge(s, t.dueSent) else s;
    assert Times(s.acks) + [] == Times(s.acks);
    TimesOne(s.acks, Ack(s.seen, s.pos));
    if a.status == Running {
      ReceiveAcks(a, t, capacity);
      TimesOne(a.acks, Ack(a.seen, a.pos));
      assert Times(s.acks) + [s.seen] + [s.seen] == Times(s.acks) + seq(2, _ => s.seen);
    }
  }

  lemma SuccessesOf(t: Turn)
    ensures Successes([]) == 0 && Successes([true]) == 1 && Successes([false]) == 0
    ensures Successes([true] + [true]) == 2 && Successes([true] + [false]) == 1
    ensures [true] + [] == [true] && [] + [true] == [true] && [] + [false] == [false]
  {
    assert ([true] + [true])[1..] == [true] && ([true] + [false])[1..] == [false];
  }

  /** The loop runs exactly until the first turn that ends it, and ends as that turn says; and it has
      acknowledged exactly when the timer was due, after every timeout and on every request, as long as
      sending worked. */
  lemma {:induction false} AckLaw(ts: seq<Turn>, capacity: nat, counter: nat, start: nat)
    ensures var s := RunLoop(Start(counter, start), ts, capacity);
            && s.status == EndOf(ts)
            && Times(s.acks) == AckTimes(ts)
            && (s.status == Running ==> s.seen == |ts|)
    decreases |ts|
  {
    hide Iterate, Attempts, Ending;
    if ts != [] {
      var k := |ts| - 1;
      AckLaw(ts[..k], capacity, counter, start);
      var s := RunLoop(Start(counter, start), ts[..k], capacity);
      if s.status == Running {
        TurnAcks(s, ts[k], capacity);
      } else {
        Returned(s, ts[k], capacity);
        assert AckTimes(ts[..k]) + [] == AckTimes(ts[..k]);
      }
    }
  }

  lemma Returned(s: Loop, t: Turn, capacity: nat)
    requires s.status != Running
    ensures Iterate(s, t, capacity) == s
  {
  }
}
