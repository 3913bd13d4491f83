/** What the read loop guarantees over any message stream, stated without its cache. */
module ListenerProps {
  import opened Seqs
  import opened Events
  import opened ListenerSpec

  /** The relation message that describes oid at the end of this stream: the latest one. */
  function Latest(ts: seq<Turn>, oid: nat): Option<Message> {
    if ts == [] then None
    else
      var raw := ts[|ts| - 1].raw;
      if raw.XLog? && raw.msg.Some? && raw.msg.value.Relation? && raw.msg.value.oid == oid then raw.msg
      else Latest(ts[..|ts| - 1], oid)
  }

  /** The message of the turn, when it is a DML message for a relation described earlier. */
  function Decodable(before: seq<Turn>, t: Turn): (r: Option<Message>)
    ensures r.Some? ==> t.raw.XLog? && r == t.raw.msg && r.value.IsDML() && Latest(before, r.value.oid).Some?
  {
    if t.raw.XLog? && t.raw.msg.Some? && t.raw.msg.value.IsDML() && Latest(before, t.raw.msg.value.oid).Some?
    then t.raw.msg else None
  }

  lemma {:induction false} LatestIsRelation(ts: seq<Turn>, oid: nat)
    ensures Latest(ts, oid).Some? ==> Latest(ts, oid).value.Relation? && Latest(ts, oid).value.oid == oid
    decreases |ts|
  {
    if ts != [] {
      LatestIsRelation(ts[..|ts| - 1], oid);
    }
  }

  function MetaAt(ts: seq<Turn>, oid: nat): TableMetadata
    requires Latest(ts, oid).Some?
  {
    LatestIsRelation(ts, oid);
    MetaOf(Latest(ts, oid).value)
  }

  /** Every event the stream should yield, in order, numbered consecutively from the counter. */
  function Offered(ts: seq<Turn>, counter: nat): seq<Event> {
    if ts == [] then []
    else
      var k := |ts| - 1;
      var prev := Offered(ts[..k], counter);
      var msg := Decodable(ts[..k], ts[k]);
      if msg.None? then prev
      else prev + [EventOf(msg.value, MetaAt(ts[..k], msg.value.oid),
                           (counter + |prev| + 1) % UINT64, ts[k].raw.walStart)]
  }

  /** A message that parsed and decoded without error. */
  predicate Moves(before: seq<Turn>, t: Turn) {
    && t.raw.XLog? && t.raw.msg.Some?
    && (t.raw.msg.value.IsDML() ==> Latest(before, t.raw.msg.value.oid).Some?)
  }

  /** The largest WAL start among the start position and the messages that moved it. */
  ghost predicate IsHighest(ts: seq<Turn>, start: nat, x: nat) {
    && start <= x
    && (forall i :: 0 <= i < |ts| && Moves(ts[..i], ts[i]) ==> ts[i].raw.walStart <= x)
    && (x == start || exists i :: 0 <= i < |ts| && Moves(ts[..i], ts[i]) && ts[i].raw.walStart == x)
  }

  ghost predicate CacheIsLatest(cache: map<nat, TableMetadata>, ts: seq<Turn>) {
    forall oid :: (oid in cache <==> Latest(ts, oid).Some?) && (oid in cache ==> cache[oid] == MetaAt(ts, oid))
  }

  ghost predicate Tracks(s: Loop, ts: seq<Turn>, counter: nat, start: nat) {
    && CacheIsLatest(s.cache, ts)
    && Shuffle<Event>(s.taken + s.queue, s.dropped, Offered(ts, counter))
    && s.counter == (counter + |Offered(ts, counter)|) % UINT64
    && IsHighest(ts, start, s.pos)
  }

  ghost predicate AcksTrack(acks: seq<Ack>, ts: seq<Turn>, start: nat, pos: nat) {
    && (forall i :: 0 <= i < |acks| ==> acks[i].at <= |ts| && acks[i].lsn <= pos)
    && (forall i :: 0 <= i < |acks| ==> IsHighest(ts[..acks[i].at], start, acks[i].lsn))
    && (forall i, j :: 0 <= i < j < |acks| ==> acks[i].at <= acks[j].at && acks[i].lsn <= acks[j].lsn)
  }

  // ---- one message ----

  lemma HighestKeeps(ts: seq<Turn>, t: Turn, start: nat, x: nat)
    requires IsHighest(ts, start, x) && !Moves(ts, t)
    ensures IsHighest(ts + [t], start, x)
  {
    var u := ts + [t];
    forall i | 0 <= i < |ts| ensures u[..i] == ts[..i] && u[i] == ts[i] {
    }
    assert u[..|ts|] == ts;
    if x != start {
      var i :| 0 <= i < |ts| && Moves(ts[..i], ts[i]) && ts[i].raw.walStart == x;
      assert Moves(u[..i], u[i]) && u[i].raw.walStart == x;
    }
  }

  lemma HighestMoves(ts: seq<Turn>, t: Turn, start: nat, x: nat)
    requires IsHighest(ts, start, x) && Moves(ts, t)
    ensures IsHighest(ts + [t], start, Max(x, t.raw.walStart))
  {
    var u := ts + [t];
    forall i | 0 <= i < |ts| ensures u[..i] == ts[..i] && u[i] == ts[i] {
    }
    assert u[..|ts|] == ts && u[|ts|] == t;
    if t.raw.walStart > x {
      assert Moves(u[..|ts|], u[|ts|]);
    } else if x != start {
      var i :| 0 <= i < |ts| && Moves(ts[..i], ts[i]) && ts[i].raw.walStart == x;
      assert Moves(u[..i], u[i]) && u[i].raw.walStart == x;
    }
  }

  lemma DrainTracks(s: Loop, ts: seq<Turn>, counter: nat, start: nat, n: nat)
    requires Tracks(s, ts, counter, start)
    ensures Tracks(Drain(s, n), ts, counter, start)
  {
    var d := Drain(s, n);
    assert d.taken + d.queue == s.taken + s.queue;
  }

  /** A turn without a WAL message leaves everything but acknowledgements and status alone. */
  lemma IdleTracks(s: Loop, ts: seq<Turn>, t: Turn, counter: nat, start: nat)
    requires Tracks(s, ts, counter, start) && !(t.raw.XLog? && t.raw.msg.Some?)
    ensures Tracks(s, ts + [t], counter, start)
  {
    hide Shuffle;
    var u := ts + [t];
    assert u[..|ts|] == ts && u[|ts|] == t;
    forall oid: nat ensures Latest(u, oid) == Latest(ts, oid) {
    }
    HighestKeeps(ts, t, start, s.pos);
  }

  lemma LogicalCache(s: Loop, ts: seq<Turn>, t: Turn, counter: nat, start: nat, capacity: nat)
    requires CacheIsLatest(s.cache, ts) && t.raw.XLog? && t.raw.msg.Some?
    ensures CacheIsLatest(Logical(s, t.raw.walStart, t.raw.msg.value, capacity).cache, ts + [t])
  {
    var msg := t.raw.msg.value;
    var u := ts + [t];
    assert u[..|ts|] == ts && u[|ts|] == t;
    forall oid: nat ensures Latest(u, oid) == if msg.Relation? && msg.oid == oid then Some(msg) else Latest(ts, oid) {
    }
  }

  lemma LogicalHighest(s: Loop, ts: seq<Turn>, t: Turn, start: nat, capacity: nat)
    requires CacheIsLatest(s.cache, ts) && IsHighest(ts, start, s.pos) && t.raw.XLog? && t.raw.msg.Some?
    ensures IsHighest(ts + [t], start, Logical(s, t.raw.walStart, t.raw.msg.value, capacity).pos)
  {
    if Moves(ts, t) {
      HighestMoves(ts, t, start, s.pos);
    } else {
      HighestKeeps(ts, t, start, s.pos);
    }
  }

  lemma NextId(counter: nat, k: nat)
    ensures ((counter + k) % UINT64 + 1) % UINT64 == (counter + k + 1) % UINT64
  {
  }

  /** A decodable message yields exactly one event, enqueued or dropped; any other yields none. */
  lemma LogicalEvents(s: Loop, ts: seq<Turn>, t: Turn, counter: nat, start: nat, capacity: nat)
    requires Tracks(s, ts, counter, start) && t.raw.XLog? && t.raw.msg.Some?
    ensures var r := Logical(s, t.raw.walStart, t.raw.msg.value, capacity);
            && Shuffle<Event>(r.taken + r.queue, r.dropped, Offered(ts + [t], counter))
            && r.counter == (counter + |Offered(ts + [t], counter)|) % UINT64
  {
    hide Shuffle, IsHighest;
    var msg := t.raw.msg.value;
    var u := ts + [t];
    assert u[..|ts|] == ts && u[|ts|] == t;
    var prev := Offered(ts, counter);
    var r := Logical(s, t.raw.walStart, msg, capacity);
    if msg.IsDML() && msg.oid in s.cache {
      assert Decodable(ts, t) == Some(msg);
      NextId(counter, |prev|);
      var e := EventOf(msg, MetaAt(ts, msg.oid), (counter + |prev| + 1) % UINT64, t.raw.walStart);
      assert Offered(u, counter) == prev + [e];
      if |s.queue| < capacity {
        ShuffleLeft<Event>(s.taken + s.queue, s.dropped, prev, e);
        assert r.taken + r.queue == s.taken + s.queue + [e];
      } else {
        ShuffleRight<Event>(s.taken + s.queue, s.dropped, prev, e);
      }
    } else {
      assert Decodable(ts, t) == None;
      assert r.taken == s.taken && r.queue == s.queue && r.dropped == s.dropped;
    }
  }

  // ---- whole runs ----

  ghost predicate LoopInv(s: Loop, ts: seq<Turn>, counter: nat, start: nat) {
    && s.seen <= |ts|
    && (s.status == Running ==> s.seen == |ts|)
    && Tracks(s, ts[..s.seen], counter, start)
    && AcksTrack(s.acks, ts[..s.seen], start, s.pos)
  }

  lemma AcknowledgeKeeps(s: Loop, ts: seq<Turn>, counter: nat, start: nat, ok: bool)
    requires s.seen == |ts| && Tracks(s, ts, counter, start) && AcksTrack(s.acks, ts, start, s.pos)
    ensures var a := Acknowledge(s, ok);
            a.seen == |ts| && Tracks(a, ts, counter, start) && AcksTrack(a.acks, ts, start, a.pos)
  {
    hide Shuffle, CacheIsLatest, IsHighest;
    assert ts[..|ts|] == ts;
  }

  lemma AcksLonger(acks: seq<Ack>, ts: seq<Turn>, t: Turn, start: nat, pos: nat, pos': nat)
    requires AcksTrack(acks, ts, start, pos) && pos <= pos'
    ensures AcksTrack(acks, ts + [t], start, pos')
  {
    hide IsHighest;
    forall i | 0 <= i < |acks| ensures (ts + [t])[..acks[i].at] == ts[..acks[i].at] {
    }
  }

  lemma LogicalFrame(s: Loop, walStart: nat, msg: Message, capacity: nat)
    ensures var r := Logical(s, walStart, msg, capacity);
            r.seen == s.seen && r.status == s.status && r.acks == s.acks && s.pos <= r.pos
  {
  }

  lemma LogicalKeeps(s: Loop, ts: seq<Turn>, t: Turn, counter: nat, start: nat, capacity: nat)
    requires Tracks(s, ts, counter, start) && AcksTrack(s.acks, ts, start, s.pos)
    requires t.raw.XLog? && t.raw.msg.Some?
    ensures var r := Receive(s, t, capacity);
            && r.seen == s.seen && r.status == s.status
            && Tracks(r, ts + [t], counter, start) && AcksTrack(r.acks, ts + [t], start, r.pos)
  {
    hide Shuffle, IsHighest, CacheIsLatest, Offered, Logical, Latest;
    DrainTracks(s, ts, counter, start, t.drained);
    var d := Drain(s, t.drained);
    LogicalFrame(d, t.raw.walStart, t.raw.msg.value, capacity);
    LogicalCache(d, ts, t, counter, start, capacity);
    LogicalHighest(d, ts, t, start, capacity);
    LogicalEvents(d, ts, t, counter, start, capacity);
    AcksLonger(s.acks, ts, t, start, s.pos, Receive(s, t, capacity).pos);
  }

  lemma ReceiveKeeps(s: Loop, ts: seq<Turn>, t: Turn, counter: nat, start: nat, capacity: nat)
    requires s.seen == |ts| && s.status == Running
    requires Tracks(s, ts, counter, start) && AcksTrack(s.acks, ts, start, s.pos)
    ensures var r := Receive(s, t, capacity);
            r.seen == |ts| && Tracks(r, ts + [t], counter, start) && AcksTrack(r.acks, ts + [t], start, r.pos)
  {
    hide AcksTrack, Logical, Shuffle, IsHighest, CacheIsLatest, Offered, Latest;
    if t.raw.XLog? && t.raw.msg.Some? {
      LogicalKeeps(s, ts, t, counter, start, capacity);
    } else {
      var r := Receive(s, t, capacity);
      if r.acks != s.acks {
        AcknowledgeKeeps(s, ts, counter, start, t.replySent);
      }
      assert Tracks(r, ts, counter, start);
      IdleTracks(r, ts, t, counter, start);
      AcksLonger(r.acks, ts, t, start, r.pos, r.pos);
    }
  }

  lemma IterateKeeps(s: Loop, ts: seq<Turn>, t: Turn, counter: nat, start: nat, capacity: nat)
    requires LoopInv(s, ts, counter, start)
    ensures LoopInv(Iterate(s, t, capacity), ts + [t], counter, start)
  {
    var u := ts + [t];
    if s.status != Running {
      assert u[..s.seen] == ts[..s.seen];
    } else {
      assert ts[..s.seen] == ts;
      if t.due {
        AcknowledgeKeeps(s, ts, counter, start, t.dueSent);
      }
      var a := if t.due then Acknowledge(s, t.dueSent) else s;
      if a.status != Running {
        assert u[..|ts|] == ts;
      } else {
        ReceiveKeeps(a, ts, t, counter, start, capacity);
        assert u[..|ts| + 1] == u;
      }
    }
  }

  lemma {:induction false} RunKeeps(ts: seq<Turn>, capacity: nat, counter: nat, start: nat)
    requires counter < UINT64
    ensures LoopInv(RunLoop(Start(counter, start), ts, capacity), ts, counter, start)
    decreases |ts|
  {
    hide Tracks, AcksTrack, Iterate;
    if ts == [] {
      StartKeeps(counter, start);
    } else {
      var k := |ts| - 1;
      RunKeeps(ts[..k], capacity, counter, start);
      IterateKeeps(RunLoop(Start(counter, start), ts[..k], capacity), ts[..k], ts[k], counter, start, capacity);
      assert ts[..k] + [ts[k]] == ts;
    }
  }

  lemma StartKeeps(counter: nat, start: nat)
    requires counter < UINT64
    ensures LoopInv(Start(counter, start), [], counter, start)
  {
    ShuffleNone<Event>();
    var s := Start(counter, start);
    assert s.taken + s.queue == [];
  }

  /** The read loop as a transducer: what it enqueued, merged with what it dropped on a full channel,
      is exactly the stream's decodable messages in order; the counter counts them and no others. */
  lemma Transducer(ts: seq<Turn>, capacity: nat, counter: nat, start: nat)
    requires counter < UINT64
    ensures var s := RunLoop(Start(counter, start), ts, capacity);
            && s.seen <= |ts|
            && var offered := Offered(ts[..s.seen], counter);
               && Shuffle<Event>(s.taken + s.queue, s.dropped, offered)
               && multiset(s.taken) + multiset(s.queue) + multiset(s.dropped) == multiset(offered)
               && s.counter == (counter + |offered|) % UINT64
               && (s.dropped == [] ==> s.taken + s.queue == offered)
  {
    hide CacheIsLatest, IsHighest, AcksTrack, RunLoop, Offered, Shuffle;
    RunKeeps(ts, capacity, counter, start);
    var s := RunLoop(Start(counter, start), ts, capacity);
    var offered := Offered(ts[..s.seen], counter);
    ShuffleMultiset<Event>(s.taken + s.queue, s.dropped, offered);
    assert multiset(s.taken + s.queue) == multiset(s.taken) + multiset(s.queue);
    if s.dropped == [] {
      ShuffleAlone<Event>(s.taken + s.queue, offered);
    }
  }

  /** Each offered event stems from its own DML message and carries the schema, table and columns of
      the latest earlier Relation message for that OID; the j-th one has the j-th next ID. */
  lemma {:induction false} OfferedFrom(ts: seq<Turn>, counter: nat, j: nat)
    requires j < |Offered(ts, counter)|
    ensures exists k :: 0 <= k < |ts| && Decodable(ts[..k], ts[k]).Some? && |Offered(ts[..k], counter)| == j
              && var msg := ts[k].raw.msg.value;
                 Offered(ts, counter)[j]
                 == EventOf(msg, MetaAt(ts[..k], msg.oid), (counter + j + 1) % UINT64, ts[k].raw.walStart)
    decreases |ts|
  {
    var n := |ts| - 1;
    var prev := Offered(ts[..n], counter);
    if j < |prev| {
      OfferedFrom(ts[..n], counter, j);
      var k :| 0 <= k < n && Decodable(ts[..n][..k], ts[..n][k]).Some? && |Offered(ts[..n][..k], counter)| == j
               && var msg := ts[..n][k].raw.msg.value;
                  prev[j] == EventOf(msg, MetaAt(ts[..n][..k], msg.oid), (counter + j + 1) % UINT64, ts[..n][k].raw.walStart);
      assert ts[..n][..k] == ts[..k] && ts[..n][k] == ts[k];
    }
  }

  /** A DML message for whose OID no Relation message came before. */
  predicate UnknownDML(before: seq<Turn>, t: Turn) {
    t.raw.XLog? && t.raw.msg.Some? && t.raw.msg.value.IsDML() && Latest(before, t.raw.msg.value.oid) == None
  }

  /** The event of a decodable message, whatever becomes of it. */
  function EventAt(before: seq<Turn>, t: Turn, id: nat): Event
    requires Decodable(before, t).Some?
  {
    var msg := Decodable(before, t).value;
    EventOf(msg, MetaAt(before, msg.oid), id, t.raw.walStart)
  }

  /** The output of the loop is unchanged. */
  predicate Silent(s: Loop, r: Loop) {
    r.counter == s.counter && r.taken + r.queue == s.taken + s.queue && r.dropped == s.dropped
  }

  /** The loop took the next ID for e and enqueued it, or dropped it because the channel is full. */
  predicate Emitted(s: Loop, r: Loop, e: Event, capacity: nat) {
    && r.counter == e.id == (s.counter + 1) % UINT64
    && ((r.taken + r.queue == s.taken + s.queue + [e] && r.dropped == s.dropped && |r.queue| <= capacity)
        || (r.taken + r.queue == s.taken + s.queue && r.dropped == s.dropped + [e] && capacity <= |r.queue|))
  }

  lemma LogicalEffect(s: Loop, ts: seq<Turn>, t: Turn, capacity: nat)
    requires CacheIsLatest(s.cache, ts) && t.raw.XLog? && t.raw.msg.Some?
    ensures var r := Logical(s, t.raw.walStart, t.raw.msg.value, capacity);
            && (Decodable(ts, t) == None ==> Silent(s, r))
            && (Decodable(ts, t).Some? ==>
                 r.cache == s.cache && Emitted(s, r, EventAt(ts, t, r.counter), capacity))
            && (!Moves(ts, t) ==> r.pos == s.pos)
            && (UnknownDML(ts, t) ==> r == s)
  {
    hide Latest, MetaAt;
    var msg := t.raw.msg.value;
    assert msg.IsDML() ==> (msg.oid in s.cache <==> Latest(ts, msg.oid).Some?);
    if msg.IsDML() && msg.oid in s.cache {
      var r := Logical(s, t.raw.walStart, msg, capacity);
      assert s.taken + (s.queue + [EventAt(ts, t, r.counter)]) == s.taken + s.queue + [EventAt(ts, t, r.counter)];
    }
  }

  lemma DrainEffect(s: Loop, n: nat)
    ensures var d := Drain(s, n);
            d == s.(taken := d.taken, queue := d.queue) && d.taken + d.queue == s.taken + s.queue
  {
    var k := Min(n, |s.queue|);
    assert s.queue == s.queue[..k] + s.queue[k..];
  }

  lemma ReceiveEffect(s: Loop, ts: seq<Turn>, t: Turn, capacity: nat)
    requires CacheIsLatest(s.cache, ts)
    ensures var r := Receive(s, t, capacity);
            && (Decodable(ts, t) == None ==> Silent(s, r))
            && (Decodable(ts, t).Some? ==>
                 r.cache == s.cache && Emitted(s, r, EventAt(ts, t, r.counter), capacity))
            && (!Moves(ts, t) ==> r.pos == s.pos)
            && (UnknownDML(ts, t) ==> r.cache == s.cache)
  {
    hide Logical, Drain, CacheIsLatest, EventAt, Latest, MetaAt;
    if t.raw.XLog? && t.raw.msg.Some? {
      hide Moves;
      DrainEffect(s, t.drained);
      LogicalEffect(Drain(s, t.drained), ts, t, capacity);
    }
  }

  lemma IterateEffect(s: Loop, ts: seq<Turn>, t: Turn, capacity: nat)
    requires CacheIsLatest(s.cache, ts) && s.status == Running
    ensures var r := Iterate(s, t, capacity);
            && (Decodable(ts, t) == None ==> Silent(s, r))
            && (Decodable(ts, t).Some? && (t.due ==> t.dueSent) ==>
                 r.cache == s.cache && Emitted(s, r, EventAt(ts, t, r.counter), capacity))
            && (!Moves(ts, t) ==> r.pos == s.pos)
            && (UnknownDML(ts, t) ==> r.cache == s.cache)
  {
    hide Receive, CacheIsLatest, EventAt, Decodable, Moves, UnknownDML;
    ReceiveEffect(if t.due then Acknowledge(s, t.dueSent) else s, ts, t, capacity);
  }

  /** What one more received message does to the loop. A decodable one takes the next ID and is
      enqueued, or dropped on a full channel, with the latest Relation message's metadata; any other
      takes no ID, enqueues nothing and drops nothing. DML with no earlier Relation message changes
      neither cache nor position either, and a loop that has returned is not changed at all. */
  lemma TurnEffect(ts: seq<Turn>, t: Turn, capacity: nat, counter: nat, start: nat)
    requires counter < UINT64
    ensures var s := RunLoop(Start(counter, start), ts, capacity);
            var r := RunLoop(Start(counter, start), ts + [t], capacity);
            && (s.status != Running ==> r == s)
            && (Decodable(ts, t) == None ==> Silent(s, r))
            && (s.status == Running && Decodable(ts, t).Some? && (t.due ==> t.dueSent) ==>
                 r.cache == s.cache && Emitted(s, r, EventAt(ts, t, r.counter), capacity))
            && (!Moves(ts, t) ==> r.pos == s.pos)
            && (UnknownDML(ts, t) ==> r.cache == s.cache && r.pos == s.pos && Silent(s, r))
  {
    hide Latest, MetaAt, EventAt, Emitted, AcksTrack, Shuffle, IsHighest, CacheIsLatest, Offered;
    RunKeeps(ts, capacity, counter, start);
    var s := RunLoop(Start(counter, start), ts, capacity);
    assert (ts + [t])[..|ts|] == ts;
    if s.status == Running {
      assert ts[..s.seen] == ts;
      IterateEffect(s, ts, t, capacity);
    }
    hide Iterate;
  }

  ghost predicate IdsIncrease(es: seq<Event>) {
    forall i, j :: 0 <= i < j < |es| ==> es[i].id < es[j].id
  }

  lemma {:induction false} OfferedIds(ts: seq<Turn>, counter: nat)
    ensures forall j :: 0 <= j < |Offered(ts, counter)| ==> Offered(ts, counter)[j].id == (counter + j + 1) % UINT64
    decreases |ts|
  {
    if ts != [] {
      OfferedIds(ts[..|ts| - 1], counter);
    }
  }

  lemma WrapId(x: nat)
    requires x < 2 * UINT64
    ensures x % UINT64 == if x < UINT64 then x else x - UINT64
  {
  }

  /** The 64-bit counter: IDs of the decoded events strictly increase if and only if it does not wrap
      among them, that is, they fit below its maximum or start right after it. */
  lemma IdsIncreaseIff(ts: seq<Turn>, counter: nat)
    requires counter < UINT64
    ensures var n := |Offered(ts, counter)|;
            IdsIncrease(Offered(ts, counter))
            <==> n <= 1 || counter + n < UINT64 || (counter == UINT64 - 1 && n <= UINT64)
  {
    OfferedIds(ts, counter);
    var es := Offered(ts, counter);
    if UINT64 < |es| {
      WrapId(counter + 1);
      assert es[0].id == es[UINT64].id by {
        assert (counter + UINT64 + 1) % UINT64 == (counter + 1) % UINT64;
      }
    } else {
      forall j | 0 <= j < |es|
        ensures es[j].id == if counter + j + 1 < UINT64 then counter + j + 1 else counter + j + 1 - UINT64
      {
        WrapId(counter + j + 1);
      }
      if 1 < |es| && UINT64 <= counter + |es| && counter < UINT64 - 1 {
        var j := UINT64 - 1 - counter;
        assert es[j - 1].id > es[j].id;
      }
    }
  }

  /** IDs are not monotone across the wrap: with the counter one below its maximum, two inserts get
      the maximum and then 0. */
  lemma IdsWrap()
    ensures var rel := Relation(1, "public", "t", []);
            var turn := (m: Message) => Turn(false, true, true, 0, XLog(1, Some(m)));
            var ts := [turn(rel), turn(InsertMessage(1, NoTuple)), turn(InsertMessage(1, NoTuple))];
            var es := Offered(ts, UINT64 - 2);
            |es| == 2 && es[0].id == UINT64 - 1 == 18_446_744_073_709_551_615 && es[1].id == 0
  {
    var rel := Relation(1, "public", "t", []);
    var turn := (m: Message) => Turn(false, true, true, 0, XLog(1, Some(m)));
    var a, b := turn(rel), turn(InsertMessage(1, NoTuple));
    assert [a, b][..1] == [a] && [a, b, b][..2] == [a, b] && [a][..0] == [];
    assert Latest([a], 1) == Some(rel) && Latest([a, b], 1) == Some(rel);
    assert |Offered([a], UINT64 - 2)| == 0;
    assert |Offered([a, b], UINT64 - 2)| == 1;
    assert |Offered([a, b, b], UINT64 - 2)| == 2;
    OfferedIds([a, b, b], UINT64 - 2);
  }

  lemma {:induction false} ShuffleIds(a: seq<Event>, b: seq<Event>, m: seq<Event>, hi: nat)
    requires Shuffle<Event>(a, b, m) && IdsIncrease(m)
    requires forall i :: 0 <= i < |m| ==> m[i].id < hi
    ensures IdsIncrease(a) && forall i :: 0 <= i < |a| ==> a[i].id < hi
    decreases |m|
  {
    if m != [] {
      var k := |m| - 1;
      if a != [] && a[|a| - 1] == m[k] && Shuffle<Event>(a[..|a| - 1], b, m[..k]) {
        ShuffleIds(a[..|a| - 1], b, m[..k], m[k].id);
      } else {
        ShuffleIds(a, b[..|b| - 1], m[..k], m[k].id);
      }
    }
  }

  predicate HasId(es: seq<Event>, id: nat) {
    exists i :: 0 <= i < |es| && es[i].id == id
  }

  lemma HasIdAt(es: seq<Event>, i: nat, id: nat)
    requires i < |es| && es[i].id == id
    ensures HasId(es, id)
  {
  }

  lemma HasIdSnoc(es: seq<Event>, id: nat)
    ensures es != [] ==> (HasId(es, id) <==> HasId(es[..|es| - 1], id) || es[|es| - 1].id == id)
  {
    if es != [] {
      var k := |es| - 1;
      if HasId(es, id) {
        var i :| 0 <= i < |es| && es[i].id == id;
        assert i < k ==> es[..k][i].id == id;
      }
      if HasId(es[..k], id) {
        var i :| 0 <= i < k && es[..k][i].id == id;
        assert es[i].id == id;
      }
    }
  }

  /** An ID of a merged sequence with increasing IDs is on exactly one side. */
  lemma {:induction false} ShuffleSplitsIds(a: seq<Event>, b: seq<Event>, m: seq<Event>, id: nat)
    requires Shuffle<Event>(a, b, m) && IdsIncrease(m)
    ensures HasId(m, id) <==> HasId(a, id) || HasId(b, id)
    ensures !(HasId(a, id) && HasId(b, id))
    decreases |m|
  {
    HasIdSnoc(a, id);
    HasIdSnoc(b, id);
    HasIdSnoc(m, id);
    if m != [] {
      var k := |m| - 1;
      assert HasId(m[..k], id) ==> id < m[k].id;
      if a != [] && a[|a| - 1] == m[k] && Shuffle<Event>(a[..|a| - 1], b, m[..k]) {
        ShuffleSplitsIds(a[..|a| - 1], b, m[..k], id);
      } else {
        ShuffleSplitsIds(a, b[..|b| - 1], m[..k], id);
      }
      hide HasId, IdsIncrease, Shuffle;
    }
  }

  /** Short of the 64-bit wrap, enqueued IDs strictly increase, and the IDs missing from the
      consecutive numbering are exactly those of the events dropped on a full channel. */
  lemma EmittedIdsIncrease(ts: seq<Turn>, capacity: nat, counter: nat, start: nat)
    requires counter < UINT64
    requires var s := RunLoop(Start(counter, start), ts, capacity);
             s.seen <= |ts| ==> counter + |Offered(ts[..s.seen], counter)| < UINT64
    ensures var s := RunLoop(Start(counter, start), ts, capacity);
            && s.seen <= |ts|
            && IdsIncrease(s.taken + s.queue)
            && (forall j :: 0 <= j < |Offered(ts[..s.seen], counter)| ==>
                 Offered(ts[..s.seen], counter)[j].id == counter + j + 1)
            && (forall id :: counter < id <= counter + |Offered(ts[..s.seen], counter)| ==>
                 (HasId(s.dropped, id) <==> !HasId(s.taken + s.queue, id)))
  {
    hide Offered, RunLoop, Shuffle, HasId;
    Transducer(ts, capacity, counter, start);
    var s := RunLoop(Start(counter, start), ts, capacity);
    var es := Offered(ts[..s.seen], counter);
    OfferedIds(ts[..s.seen], counter);
    forall j | 0 <= j < |es| ensures es[j].id == counter + j + 1 {
      WrapId(counter + j + 1);
    }
    ShuffleIds(s.taken + s.queue, s.dropped, es, UINT64);
    forall id | counter < id <= counter + |es| ensures HasId(s.dropped, id) <==> !HasId(s.taken + s.queue, id) {
      HasIdAt(es, id - counter - 1, id);
      ShuffleSplitsIds(s.taken + s.queue, s.dropped, es, id);
    }
  }

  /** Acknowledged positions never decrease, and each is the largest of the start position and the
      WAL starts of the messages that had parsed and decoded by then; nothing else moves it. */
  lemma AckPositions(ts: seq<Turn>, capacity: nat, counter: nat, start: nat)
    requires counter < UINT64
    ensures var s := RunLoop(Start(counter, start), ts, capacity);
            && (forall i, j :: 0 <= i < j < |s.acks| ==> s.acks[i].lsn <= s.acks[j].lsn)
            && (forall i :: 0 <= i < |s.acks| ==>
                 s.acks[i].at <= |ts| && IsHighest(ts[..s.acks[i].at], start, s.acks[i].lsn))
  {
    RunKeeps(ts, capacity, counter, start);
    hide IsHighest, Tracks;
    var s := RunLoop(Start(counter, start), ts, capacity);
    forall i | 0 <= i < |s.acks|
      ensures s.acks[i].at <= |ts| && IsHighest(ts[..s.acks[i].at], start, s.acks[i].lsn)
    {
      assert ts[..s.seen][..s.acks[i].at] == ts[..s.acks[i].at];
    }
  }
}
