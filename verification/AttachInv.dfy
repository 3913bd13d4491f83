/** What every action of the attach protocol keeps, one connection at a time. */
module AttachInv {
  import opened Seqs
  import opened ClientSpec
  import opened Attach
  import Ev = Events
  import St = StoreSpec

  // ---- the items under way ----

  function Upstream(s: St.State, v: Server): seq<Item> {
    (if v.hand.Some? then [v.hand.value] else []) + (if v.pc == Snapped then v.items else []) + Queue(s, v)
  }

  function Downstream(wire: Wire, q: Peer): seq<Item>
    requires q.replay <= |q.client.snapshot| && q.read <= |wire|
  {
    q.pushed + q.client.snapshot[q.replay..] + q.client.events + Items(wire[q.read..])
  }

  /** Everything on its way to the client's store, oldest hop first: pushed there, waiting in the
      client, on the wire, in the pump's hand, queued at the daemon. */
  function Flow(s: St.State, c: Conn): seq<Item>
    requires c.peer.replay <= |c.peer.client.snapshot| && c.peer.read <= |c.wire|
  {
    Downstream(c.wire, c.peer) + Upstream(s, c.srv)
  }

  function QueueDrops(s: St.State, v: Server): seq<Item> {
    if v.sub.Some? && v.sub.value < |s.chans| then s.chans[v.sub.value].dropped else []
  }

  /** Positions dropped at the daemon's queue, at the client's, or taken by a failed write. */
  ghost function Missed(s: St.State, c: Conn): set<Item> {
    Elems(QueueDrops(s, c.srv)) + Elems(c.srv.lost) + Elems(c.peer.client.dropped)
  }

  /** Positions pushed while the connection was subscribed. */
  function Subscribed(s: St.State, v: Server): seq<Item> {
    if v.sub.Some? && v.sub.value < |s.chans|
    then Range(s.chans[v.sub.value].since, St.Until(s.chans[v.sub.value], s.history)) else []
  }

  /** What the connection promised: its snapshot, then everything pushed while subscribed. */
  function Due(s: St.State, v: Server): seq<Item> {
    v.items + Subscribed(s, v)
  }

  // ---- the invariant ----

  predicate StreamMsg(env: Envelope<Item>) {
    env.EventMsg? || env.StatsMsg? || env.Pong?
  }

  /** The wire is hello, snapshot, then any mix of event, stats and pong. */
  ghost predicate WireShape(o: Options, items: seq<Item>, wire: Wire) {
    && (|wire| > 0 ==> wire[0] == Hello(o.version, o.db))
    && (|wire| > 1 ==> wire[1] == Snapshot(items))
    && (forall k :: 2 <= k < |wire| ==> StreamMsg(wire[k]))
  }

  ghost predicate PeerShape(o: Options, items: seq<Item>, written: nat, q: Peer) {
    && q.read <= written
    && !q.client.phase.Refused?
    && (q.client.phase.AwaitHello? ==> q.read == 0)
    && (q.client.phase.AwaitSnapshot? ==> q.read == 1)
    && (q.client.phase.Ready? ==> q.read >= 2)
    && (q.read >= 1 ==> q.client.version == o.version && q.client.db == o.db)
    && (if q.read >= 2 then q.client.snapshot == items
        else q.client.snapshot == [] && q.client.events == [] && q.client.dropped == [] && q.pushed == [])
    && q.replay <= |q.client.snapshot| && q.replay <= |q.pushed|
    && q.pushed[..q.replay] == q.client.snapshot[..q.replay]
    && (|q.pushed| > q.replay ==> q.replay == |q.client.snapshot|)
  }

  ghost predicate SubShape(s: St.State, v: Server, written: nat) {
    && v.snapAt <= |s.history|
    && v.items == Range(Max(0, v.snapAt - s.capacity), v.snapAt)
    && (v.sub.Some? ==>
          && v.sub.value < |s.chans|
          && s.chans[v.sub.value].filter == Ev.AllowAll
          && v.snapAt <= s.chans[v.sub.value].since <= St.Until(s.chans[v.sub.value], s.history) <= |s.history|
          && (s.chans[v.sub.value].closedAt.None? <==> v.pc == Streaming || v.pc == Returning)
          && written >= 2)
    && (v.sub.None? ==> !v.pumpOn && !v.tickOn && v.hand.None?)
    && match v.pc
       case Fresh => v.sub.None? && v.items == [] && v.lost == [] && written == 0
       case Counted => v.sub.None? && v.items == [] && v.lost == [] && written == 0
       case Greeted => v.sub.None? && v.items == [] && v.lost == [] && written == 1
       case Snapped => v.sub.None? && written == 1 && v.lost == []
       case Sent => v.sub.None? && written == 2
       case Streaming => v.sub.Some?
       case Returning => v.sub.Some?
       case Unsubscribed => v.sub.Some?
       case _ => true
  }

  ghost predicate Shape(o: Options, s: St.State, c: Conn) {
    WireShape(o, c.srv.items, c.wire) && PeerShape(o, c.srv.items, |c.wire|, c.peer) && SubShape(s, c.srv, |c.wire|)
  }

  /** The flow is exactly what is due and was not missed, in order. */
  ghost predicate Books(s: St.State, c: Conn)
    requires c.peer.replay <= |c.peer.client.snapshot| && c.peer.read <= |c.wire|
  {
    && Flow(s, c) == Without(Due(s, c.srv), Missed(s, c))
    && Missed(s, c) <= Elems(Due(s, c.srv))
  }

  ghost predicate ConnInv(o: Options, s: St.State, c: Conn) {
    Shape(o, s, c) && Books(s, c)
  }

  /** The client-side and wire indices are in range, which is all the flow needs. */
  ghost predicate InRange(c: Conn) {
    c.peer.replay <= |c.peer.client.snapshot| && c.peer.read <= |c.wire|
  }

  /** The step moved items along without losing or adding any. */
  ghost predicate SameBooks(s: St.State, c: Conn, t: St.State, d: Conn) {
    && InRange(c) && InRange(d)
    && Flow(t, d) == Flow(s, c)
    && Due(t, d.srv) == Due(s, c.srv)
    && Missed(t, d) == Missed(s, c)
  }

  /** The step took one item x out of the flow and recorded it as missed. */
  ghost predicate MissedOne(s: St.State, c: Conn, t: St.State, d: Conn, a: seq<Item>, x: Item, b: seq<Item>) {
    && InRange(c) && InRange(d)
    && Flow(s, c) == a + [x] + b && Flow(t, d) == a + b
    && Due(t, d.srv) == Due(s, c.srv)
    && Missed(t, d) == Missed(s, c) + {x}
  }

  // ---- how the books can move ----

  lemma DueIncreasing(s: St.State, v: Server, written: nat)
    requires SubShape(s, v, written)
    ensures Increasing(Due(s, v)) && Below(Due(s, v), |s.history|)
  {
  }

  lemma BooksMiss(s: St.State, c: Conn, t: St.State, d: Conn, a: seq<Item>, x: Item, b: seq<Item>)
    requires MissedOne(s, c, t, d, a, x, b) && Books(s, c)
    requires Increasing(Due(s, c.srv))
    ensures Books(t, d)
  {
    WithoutOneMore(Due(s, c.srv), Missed(s, c), a, x, b);
  }

  /** Sending appends to the wire, and to the flow what the envelope carries. */
  lemma SendFlow(wire: Wire, q: Peer, env: Envelope<Item>)
    requires q.replay <= |q.client.snapshot| && q.read <= |wire|
    ensures Downstream(wire + [env], q) == Downstream(wire, q) + ItemsOf(env)
  {
    assert (wire + [env])[q.read..] == wire[q.read..] + [env];
    ItemsAppend(wire[q.read..], env);
  }

  /** Nothing is under way downstream until the snapshot has been written. */
  lemma NothingWritten(o: Options, items: seq<Item>, wire: Wire, q: Peer)
    requires WireShape(o, items, wire) && PeerShape(o, items, |wire|, q) && |wire| <= 1
    ensures Downstream(wire, q) == []
  {
    var rest := wire[q.read..];
    if rest != [] {
      assert rest[0] == Hello(o.version, o.db) && rest[1..] == [];
      assert Items(rest) == ItemsOf(rest[0]) + Items(rest[1..]);
    }
  }

  /** Appending one proper message keeps the wire in shape and leaves the reader where it is. */
  lemma WireGrows(o: Options, items: seq<Item>, wire: Wire, env: Envelope<Item>, q: Peer)
    requires WireShape(o, items, wire) && PeerShape(o, items, |wire|, q)
    requires |wire| == 0 ==> env == Hello(o.version, o.db)
    requires |wire| == 1 ==> env == Snapshot(items)
    requires |wire| >= 2 ==> StreamMsg(env)
    ensures WireShape(o, items, wire + [env]) && PeerShape(o, items, |wire + [env]|, q)
  {
  }

  // ---- the handler ----

  lemma SnapshotTaken(o: Options, s: St.State, c: Conn, d: Conn)
    requires Shape(o, s, c) && c.srv.pc == Greeted
    requires d == c.(srv := d.srv)
    requires d.srv == c.srv.(pc := Snapped, items := Range(Lowest(s), |s.history|), snapAt := |s.history|)
    ensures ConnInv(o, s, d)
  {
    NothingWritten(o, [], c.wire, c.peer);
    assert Missed(s, d) == {};
    assert Flow(s, d) == d.srv.items == Due(s, d.srv);
    WithoutNothing(d.srv.items);
  }

  /** Shape and books give the invariant. */
  lemma BooksKept(o: Options, s: St.State, c: Conn, t: St.State, d: Conn)
    requires Shape(o, t, d) && SameBooks(s, c, t, d) && Books(s, c)
    ensures ConnInv(o, t, d)
  {
    hide Shape, Flow, Due, Missed, Without;
  }

  lemma SnapshotWrittenShape(o: Options, s: St.State, c: Conn, d: Conn)
    requires Shape(o, s, c) && c.srv.pc == Snapped
    requires d == Conn(c.srv.(pc := Sent), c.wire + [Snapshot(c.srv.items)], c.peer)
    ensures Shape(o, s, d)
  {
    WireGrows(o, c.srv.items, c.wire, Snapshot(c.srv.items), c.peer);
    hide WireShape, PeerShape, Range, St.Until;
  }

  lemma SnapshotWrittenFlow(s: St.State, c: Conn, d: Conn)
    requires InRange(c) && c.srv.pc == Snapped && c.srv.sub.None? && c.srv.hand.None?
    requires d == Conn(c.srv.(pc := Sent), c.wire + [Snapshot(c.srv.items)], c.peer)
    ensures SameBooks(s, c, s, d)
  {
    hide Downstream, Range, St.Until, Elems;
    SendFlow(c.wire, c.peer, Snapshot(c.srv.items));
    assert Upstream(s, c.srv) == c.srv.items && Upstream(s, d.srv) == [];
  }

  lemma SnapshotWritten(o: Options, s: St.State, c: Conn, d: Conn)
    requires ConnInv(o, s, c) && c.srv.pc == Snapped
    requires d == Conn(c.srv.(pc := Sent), c.wire + [Snapshot(c.srv.items)], c.peer)
    ensures ConnInv(o, s, d)
  {
    hide WireShape, Books, SameBooks, Range;
    SnapshotWrittenShape(o, s, c, d);
    SnapshotWrittenFlow(s, c, d);
    BooksKept(o, s, c, s, d);
  }

  lemma SnapshotLostShape(o: Options, s: St.State, c: Conn, d: Conn)
    requires Shape(o, s, c) && c.srv.pc == Snapped
    requires d == c.(srv := c.srv.(pc := Leaving, broken := true, lost := c.srv.lost + c.srv.items))
    ensures Shape(o, s, d)
  {
    hide WireShape, PeerShape, Range, St.Until;
  }

  lemma SnapshotLostBooks(s: St.State, c: Conn, d: Conn)
    requires InRange(c) && Downstream(c.wire, c.peer) == []
    requires c.srv.sub.None? && c.srv.hand.None? && c.srv.lost == [] && c.peer.client.dropped == []
    requires d == c.(srv := c.srv.(pc := Leaving, broken := true, lost := c.srv.lost + c.srv.items))
    ensures Books(s, d)
  {
    hide Downstream, Range, St.Until, Without;
    var items := c.srv.items;
    assert Flow(s, d) == [] && Due(s, d.srv) == items;
    assert Missed(s, d) == Elems(items) by {
      assert c.srv.lost + items == items;
    }
    WithoutAll(items, Elems(items));
  }

  lemma SnapshotLost(o: Options, s: St.State, c: Conn, d: Conn)
    requires Shape(o, s, c) && c.srv.pc == Snapped
    requires d == c.(srv := c.srv.(pc := Leaving, broken := true, lost := c.srv.lost + c.srv.items))
    ensures ConnInv(o, s, d)
  {
    hide WireShape, Books, Range, St.Until, Downstream;
    NothingWritten(o, c.srv.items, c.wire, c.peer);
    SnapshotLostShape(o, s, c, d);
    SnapshotLostBooks(s, c, d);
  }

  // ---- steps that move no items ----

  predicate Plain(a: Action) {
    a.CountIn? || a.SendHello? || a.Reply? || a.Return? || a.StopPump? || a.CountOut? || a.Close? || a.Tick? || a.PumpExit? || a.TickExit?
  }

  /** v' differs from v in its program counter and flags only, and out carries no item. */
  ghost predicate PlainChange(o: Options, v: Server, written: nat, v': Server, out: Option<Envelope<Item>>) {
    && v' == v.(pc := v'.pc, stopped := v'.stopped, pumpOn := v'.pumpOn, tickOn := v'.tickOn, broken := v'.broken)
    && (v.pc == Snapped <==> v'.pc == Snapped)
    && (out.Some? ==> written != 1 && (written == 0 ==> out.value == Hello(o.version, o.db))
                      && (written >= 2 ==> StreamMsg(out.value)) && ItemsOf(out.value) == [])
  }

  lemma PlainHelper(o: Options, s: St.State, clients: int, v: Server, written: nat, a: Action)
    requires SubShape(s, v, written) && (a.Tick? || a.PumpExit? || a.TickExit?)
    ensures var eff := Helpers(s, clients, v, a);
            && eff.op == None
            && PlainChange(o, v, written, eff.srv, eff.out)
            && SubShape(s, eff.srv, if eff.out.Some? then written + 1 else written)
  {
    hide St.Until, Range, Max;
  }

  lemma PlainSend(o: Options, s: St.State, clients: int, v: Server, written: nat, a: Action)
    requires SubShape(s, v, written) && (a.Reply? || a.SendHello?)
    ensures var eff := Handler(o, s, clients, v, a);
            && eff.op == None
            && PlainChange(o, v, written, eff.srv, eff.out)
            && SubShape(s, eff.srv, if eff.out.Some? then written + 1 else written)
  {
    hide St.Until, Range, Max;
  }

  lemma PlainMove(o: Options, s: St.State, clients: int, v: Server, written: nat, a: Action)
    requires SubShape(s, v, written) && (a.CountIn? || a.Return?)
    ensures var eff := Handler(o, s, clients, v, a);
            && eff.op == None && eff.out == None
            && PlainChange(o, v, written, eff.srv, eff.out)
            && SubShape(s, eff.srv, written)
  {
    hide St.Until, Range, Max;
  }

  lemma PlainLeave(o: Options, s: St.State, clients: int, v: Server, written: nat, a: Action)
    requires SubShape(s, v, written) && (a.StopPump? || a.CountOut? || a.Close?)
    ensures var eff := Handler(o, s, clients, v, a);
            && eff.op == None && eff.out == None
            && PlainChange(o, v, written, eff.srv, eff.out)
            && SubShape(s, eff.srv, written)
  {
    hide St.Until, Range, Max;
  }

  lemma PlainStep(o: Options, s: St.State, clients: int, v: Server, written: nat, a: Action)
    requires SubShape(s, v, written) && Plain(a)
    ensures var eff := ServerStep(o, s, clients, v, a);
            && eff.op == None
            && PlainChange(o, v, written, eff.srv, eff.out)
            && SubShape(s, eff.srv, if eff.out.Some? then written + 1 else written)
  {
    if a.Tick? || a.PumpExit? || a.TickExit? {
      PlainHelper(o, s, clients, v, written, a);
    } else if a.Reply? || a.SendHello? {
      PlainSend(o, s, clients, v, written, a);
    } else if a.CountIn? || a.Return? {
      PlainMove(o, s, clients, v, written, a);
    } else {
      PlainLeave(o, s, clients, v, written, a);
    }
  }

  lemma PlainKeeps(o: Options, s: St.State, c: Conn, d: Conn, out: Option<Envelope<Item>>)
    requires ConnInv(o, s, c)
    requires PlainChange(o, c.srv, |c.wire|, d.srv, out) && SubShape(s, d.srv, |d.wire|)
    requires d.wire == Append(c.wire, out) && d.peer == c.peer
    ensures ConnInv(o, s, d)
  {
    assert Upstream(s, d.srv) == Upstream(s, c.srv);
    if out.Some? {
      WireGrows(o, c.srv.items, c.wire, out.value, c.peer);
      SendFlow(c.wire, c.peer, out.value);
      assert Downstream(d.wire, d.peer) == Downstream(c.wire, c.peer);
    }
  }

  // ---- the subscription ----

  lemma SubscribeKeeps(o: Options, s: St.State, c: Conn, t: St.State, d: Conn)
    requires St.Wf(s) && ConnInv(o, s, c) && c.srv.pc == Sent
    requires t == St.Step(s, St.Subscribe(Ev.AllowAll)).s
    requires d == c.(srv := c.srv.(pc := Streaming, sub := Some(|s.chans|), pumpOn := true, tickOn := true))
    ensures ConnInv(o, t, d)
  {
    assert Due(t, d.srv) == Due(s, c.srv);
    assert Flow(t, d) == Flow(s, c);
    assert Missed(t, d) == Missed(s, c);
  }

  /** t is s after subscription id was closed. */
  ghost predicate Closed(s: St.State, t: St.State, id: nat) {
    && id < |s.chans|
    && t.history == s.history && t.capacity == s.capacity
    && t.chans == s.chans[id := s.chans[id].(closedAt := Some(|s.history|))]
  }

  lemma UnsubscribeFlow(s: St.State, c: Conn, t: St.State, d: Conn)
    requires InRange(c) && c.srv.sub.Some? && Closed(s, t, c.srv.sub.value)
    requires s.chans[c.srv.sub.value].closedAt.None?
    requires c.srv.pc == Returning && d == c.(srv := c.srv.(pc := Unsubscribed))
    ensures SameBooks(s, c, t, d)
  {
    assert Subscribed(t, d.srv) == Subscribed(s, c.srv);
    assert Upstream(t, d.srv) == Upstream(s, c.srv);
  }

  lemma UnsubscribeKeeps(o: Options, s: St.State, c: Conn, t: St.State, d: Conn)
    requires ConnInv(o, s, c) && c.srv.pc == Returning && c.srv.sub.Some? && Closed(s, t, c.srv.sub.value)
    requires d == c.(srv := c.srv.(pc := Unsubscribed))
    ensures ConnInv(o, t, d)
  {
    UnsubscribeFlow(s, c, t, d);
    assert Books(t, d);
  }

  // ---- the pump ----

  /** t is s after subscription id received its oldest queued item. */
  ghost predicate Received(s: St.State, t: St.State, id: nat) {
    && id < |s.chans|
    && t.history == s.history && t.capacity == s.capacity
    && t.chans == s.chans[id := St.ReceiveChan(s.chans[id])]
  }

  lemma PumpTakeFlow(s: St.State, c: Conn, t: St.State, d: Conn)
    requires InRange(c) && c.srv.sub.Some? && Received(s, t, c.srv.sub.value)
    requires c.srv.hand.None? && Queue(s, c.srv) != [] && c.srv.pc != Snapped
    requires d == c.(srv := c.srv.(hand := Some(Queue(s, c.srv)[0])))
    ensures SameBooks(s, c, t, d)
  {
    var q := Queue(s, c.srv);
    assert Queue(t, d.srv) == q[1..] && q == [q[0]] + q[1..];
    assert Upstream(t, d.srv) == Upstream(s, c.srv);
  }

  lemma PumpTakeShape(s: St.State, v: Server, written: nat, t: St.State)
    requires SubShape(s, v, written) && v.sub.Some? && Received(s, t, v.sub.value) && Queue(s, v) != []
    ensures SubShape(t, v.(hand := Some(Queue(s, v)[0])), written)
  {
  }

  lemma PumpTakeKeeps(o: Options, s: St.State, c: Conn, t: St.State, d: Conn)
    requires ConnInv(o, s, c) && c.srv.sub.Some? && Received(s, t, c.srv.sub.value)
    requires c.srv.hand.None? && Queue(s, c.srv) != []
    requires d == c.(srv := c.srv.(hand := Some(Queue(s, c.srv)[0])))
    ensures ConnInv(o, t, d)
  {
    PumpTakeFlow(s, c, t, d);
    PumpTakeShape(s, c.srv, |c.wire|, t);
    assert Books(t, d) && Shape(o, t, d);
  }

  lemma PumpSendFlow(s: St.State, c: Conn, d: Conn)
    requires InRange(c) && c.srv.hand.Some?
    requires d == Conn(c.srv.(hand := None), c.wire + [EventMsg(c.srv.hand.value)], c.peer)
    ensures SameBooks(s, c, s, d)
  {
    hide Downstream, St.Until, Range, Elems;
    var x := c.srv.hand.value;
    assert Downstream(d.wire, d.peer) == Downstream(c.wire, c.peer) + [x] by {
      SendFlow(c.wire, c.peer, EventMsg(x));
    }
    assert Upstream(s, c.srv) == [x] + Upstream(s, d.srv);
    assert Queue(s, d.srv) == Queue(s, c.srv) && QueueDrops(s, d.srv) == QueueDrops(s, c.srv);
  }

  lemma PumpSendShape(o: Options, s: St.State, c: Conn, d: Conn)
    requires Shape(o, s, c) && c.srv.hand.Some?
    requires d == Conn(c.srv.(hand := None), c.wire + [EventMsg(c.srv.hand.value)], c.peer)
    ensures Shape(o, s, d)
  {
    WireGrows(o, c.srv.items, c.wire, EventMsg(c.srv.hand.value), c.peer);
    hide WireShape, PeerShape, Range, St.Until;
  }

  lemma ShapeInRange(o: Options, s: St.State, c: Conn)
    requires Shape(o, s, c)
    ensures InRange(c)
  {
    hide WireShape, SubShape;
  }

  lemma PumpSendKeeps(o: Options, s: St.State, c: Conn, d: Conn)
    requires ConnInv(o, s, c) && c.srv.hand.Some?
    requires d == Conn(c.srv.(hand := None), c.wire + [EventMsg(c.srv.hand.value)], c.peer)
    ensures ConnInv(o, s, d)
  {
    hide Shape, Books, SameBooks;
    ShapeInRange(o, s, c);
    PumpSendShape(o, s, c, d);
    PumpSendFlow(s, c, d);
    BooksKept(o, s, c, s, d);
  }

  lemma PumpFailFlow(s: St.State, c: Conn, d: Conn)
    requires InRange(c) && c.srv.hand.Some?
    requires d == c.(srv := c.srv.(hand := None, lost := c.srv.lost + [c.srv.hand.value],
                                   broken := true, stopped := true, pumpOn := false))
    ensures MissedOne(s, c, s, d, Downstream(c.wire, c.peer), c.srv.hand.value, Upstream(s, d.srv))
  {
    hide Downstream, St.Until, Range;
    assert Queue(s, d.srv) == Queue(s, c.srv) && QueueDrops(s, d.srv) == QueueDrops(s, c.srv);
    assert Upstream(s, c.srv) == [c.srv.hand.value] + Upstream(s, d.srv);
    assert Missed(s, d) == Missed(s, c) + {c.srv.hand.value};
  }

  lemma PumpFailShape(o: Options, s: St.State, c: Conn, d: Conn)
    requires Shape(o, s, c) && c.srv.hand.Some?
    requires d == c.(srv := c.srv.(hand := None, lost := c.srv.lost + [c.srv.hand.value],
                                   broken := true, stopped := true, pumpOn := false))
    ensures Shape(o, s, d)
  {
    hide WireShape, PeerShape, Range, St.Until;
  }

  lemma PumpFailKeeps(o: Options, s: St.State, c: Conn, d: Conn)
    requires ConnInv(o, s, c) && c.srv.hand.Some?
    requires d == c.(srv := c.srv.(hand := None, lost := c.srv.lost + [c.srv.hand.value],
                                   broken := true, stopped := true, pumpOn := false))
    ensures ConnInv(o, s, d)
  {
    hide WireShape, PeerShape, SubShape, Books, MissedOne, Due, Downstream, Upstream;
    ShapeInRange(o, s, c);
    PumpFailShape(o, s, c, d);
    PumpFailFlow(s, c, d);
    DueIncreasing(s, c.srv, |c.wire|);
    BooksMiss(s, c, s, d, Downstream(c.wire, c.peer), c.srv.hand.value, Upstream(s, d.srv));
  }

  // ---- the client ----

  lemma ReadFlow(wire: Wire, read: nat)
    requires read < |wire|
    ensures Items(wire[read..]) == ItemsOf(wire[read]) + Items(wire[read + 1..])
  {
    assert wire[read..][1..] == wire[read + 1..];
  }

  /** Items in the client after the snapshot, before anything still on the wire. */
  function InClient(q: Peer): seq<Item>
    requires q.replay <= |q.client.snapshot|
  {
    q.pushed + q.client.snapshot[q.replay..] + q.client.events
  }

  function AfterRead(q: Peer, env: Envelope<Item>): Peer {
    q.(client := Read(q.client, env), read := q.read + 1)
  }

  lemma ClientReadShape(o: Options, items: seq<Item>, wire: Wire, q: Peer)
    requires WireShape(o, items, wire) && PeerShape(o, items, |wire|, q) && q.read < |wire| && !q.client.phase.Ended?
    ensures PeerShape(o, items, |wire|, AfterRead(q, wire[q.read]))
  {
  }

  /** Whatever the client reads is either kept, in order, or dropped and counted. */
  lemma ClientReadItems(o: Options, items: seq<Item>, wire: Wire, q: Peer)
    requires WireShape(o, items, wire) && PeerShape(o, items, |wire|, q) && q.read < |wire| && !q.client.phase.Ended?
    ensures var env := wire[q.read]; var q' := AfterRead(q, env);
            && q'.replay <= |q'.client.snapshot|
            && if env.EventMsg? && |q.client.events| >= EVENTS_CAP
               then InClient(q') == InClient(q) && q'.client.dropped == q.client.dropped + [env.item]
               else InClient(q') == InClient(q) + ItemsOf(env) && q'.client.dropped == q.client.dropped
  {
    var env := wire[q.read];
    var q' := AfterRead(q, env);
    if env.EventMsg? && |q.client.events| < EVENTS_CAP {
      assert InClient(q') == InClient(q) + [env.item];
    } else if q.client.phase.AwaitSnapshot? {
      assert InClient(q) == [] && InClient(q') == items;
    }
  }

  lemma ReadMoves(s: St.State, c: Conn, d: Conn)
    requires InRange(c) && c.peer.read < |c.wire|
    requires d == c.(peer := d.peer) && d.peer.read == c.peer.read + 1 && d.peer.replay <= |d.peer.client.snapshot|
    requires InClient(d.peer) == InClient(c.peer) + ItemsOf(c.wire[c.peer.read])
    requires d.peer.client.dropped == c.peer.client.dropped
    ensures SameBooks(s, c, s, d)
  {
    ReadFlow(c.wire, c.peer.read);
    assert Downstream(c.wire, c.peer) == Downstream(d.wire, d.peer);
  }

  lemma ReadDrops(s: St.State, c: Conn, d: Conn, x: Item)
    requires InRange(c) && c.peer.read < |c.wire| && ItemsOf(c.wire[c.peer.read]) == [x]
    requires d == c.(peer := d.peer) && d.peer.read == c.peer.read + 1 && d.peer.replay <= |d.peer.client.snapshot|
    requires InClient(d.peer) == InClient(c.peer)
    requires d.peer.client.dropped == c.peer.client.dropped + [x]
    ensures MissedOne(s, c, s, d, InClient(c.peer), x, Items(d.wire[d.peer.read..]) + Upstream(s, d.srv))
  {
    ReadFlow(c.wire, c.peer.read);
    assert Flow(s, c) == InClient(c.peer) + [x] + (Items(d.wire[d.peer.read..]) + Upstream(s, d.srv));
    assert Elems(d.peer.client.dropped) == Elems(c.peer.client.dropped) + {x};
  }

  lemma ClientReadBooks(o: Options, s: St.State, c: Conn, d: Conn)
    requires WireShape(o, c.srv.items, c.wire) && PeerShape(o, c.srv.items, |c.wire|, c.peer)
    requires c.peer.read < |c.wire| && !c.peer.client.phase.Ended?
    requires d == c.(peer := AfterRead(c.peer, c.wire[c.peer.read])) && InRange(d)
    requires Books(s, c) && Increasing(Due(s, c.srv))
    ensures Books(s, d)
  {
    hide WireShape, PeerShape, Upstream, Downstream;
    var q, env := c.peer, c.wire[c.peer.read];
    ClientReadItems(o, c.srv.items, c.wire, q);
    if env.EventMsg? && |q.client.events| >= EVENTS_CAP {
      ReadDrops(s, c, d, env.item);
      BooksMiss(s, c, s, d, InClient(q), env.item, Items(d.wire[d.peer.read..]) + Upstream(s, d.srv));
    } else {
      ReadMoves(s, c, d);
    }
  }

  lemma ClientReadKeeps(o: Options, s: St.State, c: Conn, d: Conn)
    requires ConnInv(o, s, c) && c.peer.read < |c.wire| && !c.peer.client.phase.Ended?
    requires d == c.(peer := AfterRead(c.peer, c.wire[c.peer.read]))
    ensures ConnInv(o, s, d)
  {
    ClientReadShape(o, c.srv.items, c.wire, c.peer);
    DueIncreasing(s, c.srv, |c.wire|);
    ClientReadBooks(o, s, c, d);
  }

  lemma ReplayItems(o: Options, items: seq<Item>, wire: Wire, q: Peer)
    requires PeerShape(o, items, |wire|, q)
    ensures var q' := ClientSide(wire, q, PushSnapshot);
            && PeerShape(o, items, |wire|, q') && q'.read == q.read
            && InClient(q') == InClient(q) && q'.client.dropped == q.client.dropped
  {
    var q' := ClientSide(wire, q, PushSnapshot);
    if q.replay < |q.client.snapshot| {
      var n := q.replay;
      assert q.pushed == q.pushed[..n];
      assert q'.pushed[..n + 1] == q.client.snapshot[..n + 1];
      assert q.client.snapshot[n..] == [q.client.snapshot[n]] + q.client.snapshot[n + 1..];
    }
  }

  lemma ConsumeItems(o: Options, items: seq<Item>, wire: Wire, q: Peer)
    requires PeerShape(o, items, |wire|, q)
    ensures var q' := ClientSide(wire, q, PushEvent);
            && PeerShape(o, items, |wire|, q') && q'.read == q.read
            && InClient(q') == InClient(q) && q'.client.dropped == q.client.dropped
  {
    if q.client.events != [] {
      assert q.client.events == [q.client.events[0]] + q.client.events[1..];
    }
  }

  /** The push loops move items from the client into its store, in order. */
  lemma ClientOwnItems(o: Options, items: seq<Item>, wire: Wire, q: Peer, a: Action)
    requires PeerShape(o, items, |wire|, q) && OfClient(a) && !a.ClientRead?
    ensures var q' := ClientSide(wire, q, a);
            && PeerShape(o, items, |wire|, q') && q'.read == q.read
            && InClient(q') == InClient(q) && q'.client.dropped == q.client.dropped
  {
    if a.PushSnapshot? {
      ReplayItems(o, items, wire, q);
    } else if a.PushEvent? {
      ConsumeItems(o, items, wire, q);
    }
  }

  lemma ClientOwnFlow(s: St.State, c: Conn, d: Conn)
    requires InRange(c) && InRange(d) && d == c.(peer := d.peer) && d.peer.read == c.peer.read
    requires InClient(d.peer) == InClient(c.peer) && d.peer.client.dropped == c.peer.client.dropped
    ensures SameBooks(s, c, s, d)
  {
    hide Upstream, Due, Elems, QueueDrops;
    assert Downstream(c.wire, d.peer) == InClient(d.peer) + Items(c.wire[c.peer.read..]);
  }

  lemma ClientOwnKeeps(o: Options, s: St.State, c: Conn, d: Conn, a: Action)
    requires ConnInv(o, s, c) && OfClient(a) && !a.ClientRead?
    requires d == c.(peer := ClientSide(c.wire, c.peer, a))
    ensures ConnInv(o, s, d)
  {
    hide WireShape, PeerShape, SubShape, Books, SameBooks, ClientSide;
    ShapeInRange(o, s, c);
    ClientOwnItems(o, c.srv.items, c.wire, c.peer, a);
    ShapeInRange(o, s, d);
    ClientOwnFlow(s, c, d);
    BooksKept(o, s, c, s, d);
  }

  // ---- everybody else ----

  /** The operation leaves subscription id as it is. */
  ghost predicate Untouched(s: St.State, t: St.State, v: Server) {
    && t.capacity == s.capacity && |s.chans| <= |t.chans|
    && |s.history| <= |t.history|
    && (v.sub.Some? && v.sub.value < |s.chans| ==>
          && t.chans[v.sub.value] == s.chans[v.sub.value]
          && (s.chans[v.sub.value].closedAt.None? ==> |t.history| == |s.history|))
  }

  lemma UntouchedFlow(s: St.State, t: St.State, c: Conn)
    requires InRange(c) && Untouched(s, t, c.srv)
    requires c.srv.sub.Some? ==> c.srv.sub.value < |s.chans|
    ensures SameBooks(s, c, t, c)
  {
    assert Subscribed(t, c.srv) == Subscribed(s, c.srv);
    assert Upstream(t, c.srv) == Upstream(s, c.srv);
  }

  lemma UntouchedShape(s: St.State, t: St.State, v: Server, written: nat)
    requires SubShape(s, v, written) && Untouched(s, t, v)
    ensures SubShape(t, v, written)
  {
  }

  lemma UntouchedKeeps(o: Options, s: St.State, t: St.State, c: Conn)
    requires ConnInv(o, s, c) && Untouched(s, t, c.srv)
    ensures ConnInv(o, t, c)
  {
    UntouchedFlow(s, t, c);
    UntouchedShape(s, t, c.srv, |c.wire|);
    assert Books(t, c);
  }

  /** t is s after a push, as subscription id sees it. */
  ghost predicate Pushed(s: St.State, t: St.State, id: nat) {
    && id < |s.chans| == |t.chans| && t.capacity == s.capacity
    && s.chans[id].closedAt.None?
    && |t.history| == |s.history| + 1 && s.history == t.history[..|s.history|]
    && t.chans[id] == St.Offer(s.chans[id], |s.history|, t.history[|s.history|])
  }

  /** What an operation by anyone else does to a subscription. */
  lemma OpSeen(s: St.State, op: St.Op, v: Server, t: St.State)
    requires St.Wf(s) && St.Step(s, op) == St.Ok(t)
    requires v.sub.Some? ==> v.sub.value < |s.chans|
    requires (op.Receive? || op.Unsubscribe?) ==> v.sub != Some(op.id)
    ensures Untouched(s, t, v) || (v.sub.Some? && Pushed(s, t, v.sub.value))
  {
    if op.Push? {
      St.BroadcastPointwise(s.chans, s.subs, |s.history|, op.e);
    }
  }

  lemma PushFlow(s: St.State, c: Conn, t: St.State)
    requires InRange(c) && c.srv.sub.Some? && Pushed(s, t, c.srv.sub.value)
    requires s.chans[c.srv.sub.value].since <= |s.history|
    requires s.chans[c.srv.sub.value].filter == Ev.AllowAll
    ensures Due(t, c.srv) == Due(s, c.srv) + [|s.history|]
    ensures if |s.chans[c.srv.sub.value].queue| < St.SUB_CHAN_CAP
            then Flow(t, c) == Flow(s, c) + [|s.history|] && Missed(t, c) == Missed(s, c)
            else Flow(t, c) == Flow(s, c) && Missed(t, c) == Missed(s, c) + {|s.history|}
  {
    var x := |s.history|;
    assert Subscribed(t, c.srv) == Subscribed(s, c.srv) + [x];
    if |s.chans[c.srv.sub.value].queue| < St.SUB_CHAN_CAP {
      assert Queue(t, c.srv) == Queue(s, c.srv) + [x];
      assert Upstream(t, c.srv) == Upstream(s, c.srv) + [x];
    }
  }

  /** A push adds one item to what is due, and to the flow or to the missed ones. */
  lemma PushKeeps(o: Options, s: St.State, c: Conn, t: St.State)
    requires ConnInv(o, s, c) && c.srv.sub.Some? && Pushed(s, t, c.srv.sub.value)
    ensures ConnInv(o, t, c)
  {
    DueIncreasing(s, c.srv, |c.wire|);
    PushFlow(s, c, t);
    WithoutGrows(Due(s, c.srv), Missed(s, c), |s.history|);
    assert Books(t, c) && SubShape(t, c.srv, |c.wire|);
  }

  /** A store operation by anyone else leaves a connection's books right. */
  lemma OpKeeps(o: Options, s: St.State, op: St.Op, c: Conn, t: St.State)
    requires St.Wf(s) && ConnInv(o, s, c) && St.Step(s, op) == St.Ok(t)
    requires (op.Receive? || op.Unsubscribe?) ==> c.srv.sub != Some(op.id)
    ensures ConnInv(o, t, c)
  {
    OpSeen(s, op, c.srv, t);
    if Untouched(s, t, c.srv) {
      UntouchedKeeps(o, s, t, c);
    } else {
      PushKeeps(o, s, c, t);
    }
  }
}
