/** What the attach protocol can always do: a new connection can be served, whatever is under way can
    arrive, and a served connection can leave. */
module AttachProgress {
  import opened Seqs
  import opened ClientSpec
  import opened Attach
  import opened AttachInv
  import opened AttachProps
  import opened AttachCounts
  import opened AttachLaws
  import Ev = Events
  import St = StoreSpec
  import StoreProps

  lemma {:induction false} RunAppend(o: Options, w: World, a: seq<Move>, b: seq<Move>)
    requires WorldInv(o, w)
    ensures Run(o, w, a + b) == Run(o, Run(o, w, a), b)
    decreases |b|
  {
    hide AllInv, Next, OwnSubs, CountLive;
    if b == [] {
      assert a + b == a;
    } else {
      var k := |b| - 1;
      RunAppend(o, w, a, b[..k]);
      assert (a + b)[..|a| + k] == a + b[..k];
    }
  }

  lemma RunCons(o: Options, w: World, m: Move, rest: seq<Move>)
    requires WorldInv(o, w)
    ensures WorldInv(o, Next(o, w, m)) && Run(o, w, [m] + rest) == Run(o, Next(o, w, m), rest)
  {
    hide AllInv, Next, OwnSubs, CountLive;
    NextKeeps(o, w, m);
    RunAppend(o, w, [m], rest);
    assert [m][..0] == [];
    assert Run(o, w, [m]) == Next(o, w, m);
  }

  // ---- delivery ----

  /** Nothing stands in the way: the handler serves, its writes work, and the client is reading. */
  predicate Flowing(c: Conn) {
    c.srv.pc == Streaming && Healthy(c.srv) && !c.peer.detached && !c.peer.client.phase.Ended?
  }

  /** The next step that brings an item closer to the client's store, nearest first. */
  function Deliver(c: Conn): Action {
    if c.peer.replay < |c.peer.client.snapshot| then PushSnapshot
    else if c.peer.client.events != [] then PushEvent
    else if c.peer.read < |c.wire| then ClientRead
    else if c.srv.hand.Some? then PumpSend(true)
    else PumpTake
  }

  /** The steps still to go. */
  function Load(s: St.State, c: Conn): nat {
    if c.peer.read > |c.wire| || c.peer.replay > |c.peer.client.snapshot| then 0
    else
      4 * |Queue(s, c.srv)| + (if c.srv.hand.Some? then 3 else 0)
      + |c.wire| - c.peer.read + |Items(c.wire[c.peer.read..])|
      + |c.peer.client.events| + |c.peer.client.snapshot| - c.peer.replay
  }

  /** One step of delivery: the same flow, one step shorter. */
  ghost predicate Closer(s: St.State, c: Conn, t: St.State, d: Conn) {
    && SameBooks(s, c, t, d) && Flowing(d) && Load(t, d) < Load(s, c)
    && t.history == s.history && d.srv.snapAt == c.srv.snapAt && d.srv.sub == c.srv.sub
  }

  lemma PushCloser(o: Options, s: St.State, c: Conn)
    requires ConnInv(o, s, c) && Flowing(c)
    requires Deliver(c) == PushSnapshot || Deliver(c) == PushEvent
    ensures Closer(s, c, s, c.(peer := ClientSide(c.wire, c.peer, Deliver(c))))
  {
    hide WireShape, SubShape, Books, Healthy, Flow, Due, Missed, Items;
    var a := Deliver(c);
    var d := c.(peer := ClientSide(c.wire, c.peer, a));
    ClientOwnItems(o, c.srv.items, c.wire, c.peer, a);
    ClientOwnFlow(s, c, d);
  }

  lemma ReadCloser(o: Options, s: St.State, c: Conn)
    requires ConnInv(o, s, c) && Flowing(c) && Deliver(c) == ClientRead
    ensures Closer(s, c, s, c.(peer := ClientSide(c.wire, c.peer, ClientRead)))
  {
    hide SubShape, Books, Healthy, WireShape, Downstream, Upstream, Due, Missed, Items, Read, ItemsOf;
    var env := c.wire[c.peer.read];
    var d := c.(peer := AfterRead(c.peer, env));
    ClientReadItems(o, c.srv.items, c.wire, c.peer);
    assert d.peer.client.dropped == c.peer.client.dropped;
    ClientReadShape(o, c.srv.items, c.wire, c.peer);
    ReadMoves(s, c, d);
    ReadFlow(c.wire, c.peer.read);
    ReadKeepsReading(o, c.srv.items, c.wire, c.peer);
  }

  /** No message of the daemon ends the client. */
  lemma ReadKeepsReading(o: Options, items: seq<Item>, wire: Wire, q: Peer)
    requires WireShape(o, items, wire) && PeerShape(o, items, |wire|, q) && q.read < |wire| && !q.client.phase.Ended?
    ensures !Read(q.client, wire[q.read]).phase.Ended?
  {
  }

  lemma SendCloser(o: Options, s: St.State, clients: int, c: Conn)
    requires ConnInv(o, s, c) && Flowing(c) && Deliver(c) == PumpSend(true)
    ensures var eff := ServerStep(o, s, clients, c.srv, PumpSend(true));
            eff.op == None && Closer(s, c, s, c.(srv := eff.srv, wire := Append(c.wire, eff.out)))
  {
    hide SubShape, Books, Flow, Due, Missed, WireShape, PeerShape, ServerStep;
    ShapeInRange(o, s, c);
    WorkingSends(o, s, clients, c.srv);
    var x := c.srv.hand.value;
    var d := Conn(c.srv.(hand := None), c.wire + [EventMsg(x)], c.peer);
    PumpSendFlow(s, c, d);
    assert c.wire[c.peer.read..] == [] && d.wire[c.peer.read..] == [EventMsg(x)];
    assert Items(d.wire[c.peer.read..]) == [x] + Items([EventMsg(x)][1..]);
    assert Queue(s, d.srv) == Queue(s, c.srv);
  }

  lemma TakeCloser(o: Options, s: St.State, clients: int, c: Conn)
    requires St.Wf(s) && ConnInv(o, s, c) && Flowing(c) && Deliver(c) == PumpTake && !Quiet(s, c)
    ensures var eff := ServerStep(o, s, clients, c.srv, PumpTake);
            && eff.out == None && eff.op == Some(St.Receive(c.srv.sub.value)) && c.srv.sub.Some?
            && St.Registered(s.chans, s.subs) && St.Step(s, eff.op.value).Ok?
            && Closer(s, c, St.Step(s, eff.op.value).s, c.(srv := eff.srv))
  {
    hide Books, Due, Missed, WireShape, PeerShape, Items, St.Step;
    ShapeInRange(o, s, c);
    OpenWhileStreaming(o, s, c);
    ReceiveLeads(s, c.srv.sub.value);
    var t := St.Step(s, St.Receive(c.srv.sub.value)).s;
    var d := c.(srv := c.srv.(hand := Some(Queue(s, c.srv)[0])));
    PumpTakeFlow(s, c, t, d);
  }

  /** The step at the level of the whole system: the other connections see nothing of it. */
  lemma DeliverOne(o: Options, w: World, i: nat)
    requires WorldInv(o, w) && i < |w.conns| && Flowing(w.conns[i]) && !Quiet(w.store, w.conns[i])
    ensures var c := w.conns[i]; var r := Next(o, w, On(i, Deliver(c)));
            && WorldInv(o, r) && i < |r.conns| && r.conns == w.conns[i := r.conns[i]]
            && Closer(w.store, c, r.store, r.conns[i]) && r.clients == w.clients
  {
    hide AllInv, OwnSubs, CountLive, Closer, Moved, ConnInv, Flowing;
    var c := w.conns[i];
    NextKeeps(o, w, On(i, Deliver(c)));
    NextConns(o, w, On(i, Deliver(c)));
    AllInvAt(o, w.store, w.conns, i);
    DeliverStore(o, w, i);
    DeliverConn(o, w.store, w.clients, c);
  }

  /** The store after the step. */
  function Drained(s: St.State, c: Conn): St.State
    requires St.Registered(s.chans, s.subs)
  {
    if Deliver(c) == PumpTake && c.srv.sub.Some? && St.Step(s, St.Receive(c.srv.sub.value)).Ok?
    then St.Step(s, St.Receive(c.srv.sub.value)).s else s
  }

  lemma DeliverConn(o: Options, s: St.State, clients: int, c: Conn)
    requires St.Wf(s) && ConnInv(o, s, c) && Flowing(c) && !Quiet(s, c)
    ensures St.Registered(s.chans, s.subs)
    ensures Closer(s, c, Drained(s, c), Moved(o, s, clients, c, Deliver(c)))
  {
    hide ConnInv, Flowing, Closer, ServerStep, St.Step, ClientSide;
    WfRegistered(s);
    if Deliver(c) == PushSnapshot || Deliver(c) == PushEvent {
      PushCloser(o, s, c);
    } else if Deliver(c) == ClientRead {
      ReadCloser(o, s, c);
    } else if Deliver(c) == PumpSend(true) {
      SendCloser(o, s, clients, c);
    } else {
      TakeCloser(o, s, clients, c);
    }
  }

  lemma DeliverStore(o: Options, w: World, i: nat)
    requires WorldInv(o, w) && i < |w.conns| && Flowing(w.conns[i]) && !Quiet(w.store, w.conns[i])
    ensures St.Registered(w.store.chans, w.store.subs)
    ensures var r := Next(o, w, On(i, Deliver(w.conns[i])));
            r.World? && r.store == Drained(w.store, w.conns[i]) && r.clients == w.clients
  {
    hide AllInv, OwnSubs, CountLive, ConnInv, Flowing, ServerStep, St.Step, ClientSide, St.Wf, Next, Closer, Quiet;
    var c := w.conns[i];
    WfRegistered(w.store);
    AllInvAt(o, w.store, w.conns, i);
    if OfClient(Deliver(c)) {
      ClientMove(o, w, i, Deliver(c));
    } else if Deliver(c) == PumpSend(true) {
      SendCloser(o, w.store, w.clients, c);
      var eff := ServerStep(o, w.store, w.clients, c.srv, PumpSend(true));
      HandlerMoves(o, w, i, PumpSend(true), eff.srv, eff.out);
    } else {
      TakeCloser(o, w.store, w.clients, c);
      TakeMove(o, w, i);
    }
  }

  lemma ClientMove(o: Options, w: World, i: nat, a: Action)
    requires WorldInv(o, w) && i < |w.conns| && OfClient(a)
    ensures Next(o, w, On(i, a)) == w.(conns := w.conns[i := w.conns[i].(peer := ClientSide(w.conns[i].wire, w.conns[i].peer, a))])
  {
    hide AllInv, OwnSubs, CountLive, ServerStep, ClientSide, St.Wf;
    WfRegistered(w.store);
  }

  lemma TakeMove(o: Options, w: World, i: nat)
    requires WorldInv(o, w) && i < |w.conns| && w.conns[i].srv.sub.Some?
    requires ServerStep(o, w.store, w.clients, w.conns[i].srv, PumpTake).op == Some(St.Receive(w.conns[i].srv.sub.value))
    requires St.Registered(w.store.chans, w.store.subs) && St.Step(w.store, St.Receive(w.conns[i].srv.sub.value)).Ok?
    ensures var r := Next(o, w, On(i, PumpTake));
            r.World? && r.store == St.Step(w.store, St.Receive(w.conns[i].srv.sub.value)).s && r.clients == w.clients
  {
    hide AllInv, OwnSubs, CountLive, ServerStep, St.Wf, St.Step;
  }

  /** Only connection i moves. */
  predicate OnlyOn(moves: seq<Move>, i: nat) {
    forall k :: 0 <= k < |moves| ==> moves[k].On? && moves[k].i == i
  }

  /** Everything connection i had under way is in its client's store, in order, and nothing is under way. */
  ghost predicate AllArrived(w: World, i: nat, r: World) {
    && w.World? && i < |w.conns| && InRange(w.conns[i])
    && r.World? && i < |r.conns| && r.conns == w.conns[i := r.conns[i]]
    && r.store.history == w.store.history && r.clients == w.clients
    && Flowing(r.conns[i]) && Quiet(r.store, r.conns[i])
    && r.conns[i].peer.pushed == Flow(w.store, w.conns[i])
    && Missed(r.store, r.conns[i]) == Missed(w.store, w.conns[i])
  }

  /** From any state in which the handler serves, its writes work and the client reads, everything under way
      can arrive without anybody else moving: the daemon's queue, the pump, the wire, the client's queue
      and the snapshot drain into the client's store in order, and no item is dropped on the way. */
  lemma {:induction false} CanDeliver(o: Options, w: World, i: nat) returns (moves: seq<Move>)
    requires WorldInv(o, w) && i < |w.conns| && Flowing(w.conns[i])
    ensures OnlyOn(moves, i) && AllArrived(w, i, Run(o, w, moves))
    decreases Load(w.store, w.conns[i])
  {
    hide AllInv, OwnSubs, CountLive, Quiet, Flowing, Next, Deliver, AllArrived, Closer, Load;
    var c := w.conns[i];
    if Quiet(w.store, c) {
      moves := [];
      QuietArrived(o, w, i);
    } else {
      var m := On(i, Deliver(c));
      DeliverOne(o, w, i);
      var n := Next(o, w, m);
      CloserFacts(w.store, c, n.store, n.conns[i]);
      var rest := CanDeliver(o, n, i);
      moves := [m] + rest;
      RunCons(o, w, m, rest);
      StillArrived(w, i, n, Run(o, n, rest));
    }
  }

  lemma CloserFacts(s: St.State, c: Conn, t: St.State, d: Conn)
    requires Closer(s, c, t, d)
    ensures Flowing(d) && Load(t, d) < Load(s, c)
  {
    hide Load, Flowing, SameBooks;
  }

  lemma FlowingSub(o: Options, w: World, i: nat)
    requires WorldInv(o, w) && i < |w.conns| && Flowing(w.conns[i])
    ensures w.conns[i].srv.sub.Some?
  {
    hide OwnSubs, CountLive, AllInv;
    AllInvAt(o, w.store, w.conns, i);
    OpenWhileStreaming(o, w.store, w.conns[i]);
  }

  lemma QuietArrived(o: Options, w: World, i: nat)
    requires WorldInv(o, w) && i < |w.conns| && Flowing(w.conns[i]) && Quiet(w.store, w.conns[i])
    ensures AllArrived(w, i, w)
  {
    hide AllInv, OwnSubs, CountLive, Quiet, ConnInv, Flow, Missed;
    AllInvAt(o, w.store, w.conns, i);
    OpenWhileStreaming(o, w.store, w.conns[i]);
    QuietFlow(o, w.store, w.conns[i]);
  }

  lemma StillArrived(w: World, i: nat, n: World, r: World)
    requires w.World? && n.World? && i < |w.conns| == |n.conns| && n.conns == w.conns[i := n.conns[i]]
    requires Closer(w.store, w.conns[i], n.store, n.conns[i]) && n.clients == w.clients && AllArrived(n, i, r)
    ensures AllArrived(w, i, r)
  {
    hide Quiet, Flow, Missed, Load, Flowing, Due;
  }

  /** After every run: once the daemon stops pushing and nothing fails, a client that keeps reading ends up
      with its snapshot and every later push, but for the drops recorded by then. */
  lemma CanArrive(o: Options, s: St.State, moves: seq<Move>, i: nat) returns (more: seq<Move>)
    requires St.Wf(s) && s.capacity > 0
    requires i < |Reach(o, s, moves).conns| && Flowing(Reach(o, s, moves).conns[i])
    ensures OnlyOn(more, i)
    ensures var w, r := Reach(o, s, moves), Reach(o, s, moves + more);
            && AllArrived(w, i, r) && HasArrived(r.store, r.conns[i])
  {
    hide Run, AllInv, OwnSubs, CountLive, Quiet, Flowing, HasArrived, Missed, Flow;
    IdleInv(o, s);
    more := CanDeliver(o, Reach(o, s, moves), i);
    RunAppend(o, Idle(s), moves, more);
    FlowingSub(o, Reach(o, s, moves + more), i);
    QuietCoverage(o, s, moves + more, i);
  }

  // ---- everybody else ----

  /** Any other user of the store may do anything to it at any time, but read or close a connection's
      subscription; no connection moves. */
  lemma OthersAct(o: Options, w: World, op: St.Op)
    requires WorldInv(o, w)
    ensures St.Registered(w.store.chans, w.store.subs) && St.Step(w.store, op).Ok?
    ensures Next(o, w, Env(op))
            == if (op.Receive? || op.Unsubscribe?) && exists i :: 0 <= i < |w.conns| && w.conns[i].srv.sub == Some(op.id)
               then w else w.(store := St.Step(w.store, op).s)
  {
    hide AllInv, OwnSubs, CountLive, St.Step;
    St.StepKeepsWf(w.store, op);
    WfRegistered(w.store);
  }

  /** A push by anyone reaches every connection that is serving: its queue takes the event while fewer
      than 100 wait, and drops it otherwise. */
  lemma PushReaches(o: Options, w: World, e: Ev.Event, i: nat)
    requires WorldInv(o, w) && i < |w.conns| && w.conns[i].srv.pc == Streaming
    ensures var v, r := w.conns[i].srv, Next(o, w, Env(St.Push(e)));
            && r.World? && r.conns == w.conns && r.clients == w.clients
            && r.store.history == w.store.history + [e]
            && v.sub.Some? && v.sub.value < |w.store.chans| == |r.store.chans|
            && var c := w.store.chans[v.sub.value];
               r.store.chans[v.sub.value] == if |c.queue| < 100 then c.(queue := c.queue + [|w.store.history|])
                                             else c.(dropped := c.dropped + [|w.store.history|])
  {
    hide AllInv, OwnSubs, CountLive, St.Step, ConnInv;
    OthersAct(o, w, St.Push(e));
    AllInvAt(o, w.store, w.conns, i);
    OpenWhileStreaming(o, w.store, w.conns[i]);
    AllowsAll(o, w.store, w.conns[i]);
    StoreProps.PushEffect(w.store, e, w.conns[i].srv.sub.value);
  }

  lemma AllowsAll(o: Options, s: St.State, c: Conn)
    requires ConnInv(o, s, c) && c.srv.sub.Some?
    ensures c.srv.sub.value < |s.chans| && s.chans[c.srv.sub.value].filter == Ev.AllowAll
  {
    hide WireShape, PeerShape, Books;
  }

  /** The client can give up at any time: after a read error it reads no more, and after the user quits
      it pushes no more events; what it had pushed stays. */
  lemma ClientStops(o: Options, w: World, i: nat)
    requires WorldInv(o, w) && i < |w.conns|
    ensures var c, r := w.conns[i], Next(o, w, On(i, ClientError));
            && r == w.(conns := w.conns[i := c.(peer := c.peer.(client := c.peer.client.(phase := Ended)))])
            && Next(o, r, On(i, ClientRead)) == r
    ensures var c, r := w.conns[i], Next(o, w, On(i, Detach));
            && r == w.(conns := w.conns[i := c.(peer := c.peer.(detached := true))])
            && Next(o, r, On(i, PushEvent)) == r
  {
    hide AllInv, OwnSubs, CountLive, St.Wf, ServerStep, Read;
    WfRegistered(w.store);
    var c := w.conns[i];
    var a, b := c.(peer := c.peer.(client := c.peer.client.(phase := Ended))), c.(peer := c.peer.(detached := true));
    assert w.conns[i := a][i := a] == w.conns[i := a];
    assert w.conns[i := b][i := b] == w.conns[i := b];
  }

  // ---- arriving and leaving ----

  /** A handler's step without a store operation. */
  lemma HandlerMoves(o: Options, w: World, i: nat, a: Action, v: Server, out: Option<Envelope<Item>>)
    requires WorldInv(o, w) && i < |w.conns| && !OfClient(a)
    requires ServerStep(o, w.store, w.clients, w.conns[i].srv, a) == Effect(v, out, None)
    ensures Next(o, w, On(i, a))
            == w.(clients := w.clients + Counts(w.conns[i].srv, a),
                  conns := w.conns[i := Conn(v, Append(w.conns[i].wire, out), w.conns[i].peer)])
  {
    hide AllInv, OwnSubs, CountLive, ServerStep, Counts, St.Wf;
    WfRegistered(w.store);
  }

  /** The moves that serve the next connection. */
  function Serve(i: nat): seq<Move> {
    [Accept, On(i, CountIn), On(i, SendHello(true)), On(i, TakeSnapshot), On(i, SendSnapshot(true)), On(i, SubscribeAll)]
  }

  /** A served connection: it has sent hello and the last capacity positions of the history, and its
      subscription starts right behind them. */
  function Served(o: Options, s: St.State): Conn {
    var p := |s.history|;
    var items := Range(Max(0, p - s.capacity), p);
    Conn(Server(Streaming, items, p, Some(|s.chans|), false, true, true, None, false, []),
         [Hello(o.version, o.db), Snapshot(items)], FRESH.peer)
  }

  lemma RunStep(o: Options, w: World, moves: seq<Move>, k: nat)
    requires WorldInv(o, w) && k < |moves|
    ensures Run(o, w, moves[..k + 1]) == Next(o, Run(o, w, moves[..k]), moves[k])
  {
    hide AllInv, OwnSubs, CountLive, St.Wf, Next;
    assert moves[..k + 1][..k] == moves[..k];
  }

  /** w with one more connection, c, and n clients. */
  ghost predicate Joined(w: World, n: int, c: Conn, r: World) {
    w.World? && r == World(w.store, n, w.conns + [c])
  }

  /** The newest connection's handler takes a step. */
  lemma JoinedStep(o: Options, w: World, n: int, c: Conn, r: World, a: Action, v: Server, out: Option<Envelope<Item>>)
    requires Joined(w, n, c, r) && WorldInv(o, r) && !OfClient(a)
    requires ServerStep(o, w.store, n, c.srv, a) == Effect(v, out, None)
    ensures Joined(w, n + Counts(c.srv, a), Conn(v, Append(c.wire, out), c.peer), Next(o, r, On(|w.conns|, a)))
  {
    hide AllInv, OwnSubs, CountLive, ServerStep, Counts, St.Wf, Next;
    HandlerMoves(o, r, |w.conns|, a, v, out);
    assert r.conns[|w.conns|] == c;
    assert r.conns[|w.conns| := Conn(v, Append(c.wire, out), c.peer)] == w.conns + [Conn(v, Append(c.wire, out), c.peer)];
  }

  lemma JoinedFresh(o: Options, w: World)
    requires WorldInv(o, w)
    ensures Joined(w, w.clients, FRESH, Next(o, w, Accept))
  {
    hide AllInv, OwnSubs, CountLive, St.Wf;
  }

  /** The connection after the first k moves that serve it. */
  function Stage(o: Options, s: St.State, k: nat): Conn
    requires 1 <= k <= 5
  {
    var c := Served(o, s);
    var v := c.srv.(pc := Sent, sub := None, pumpOn := false, tickOn := false);
    if k == 1 then FRESH
    else if k == 2 then FRESH.(srv := FRESH.srv.(pc := Counted))
    else if k == 3 then Conn(FRESH.srv.(pc := Greeted), [Hello(o.version, o.db)], c.peer)
    else if k == 4 then Conn(v.(pc := Snapped), [Hello(o.version, o.db)], c.peer)
    else c.(srv := v)
  }

  lemma HelloStep(o: Options, w: World, n: int, r: World)
    requires w.World? && Joined(w, n, Stage(o, w.store, 2), r) && WorldInv(o, r)
    ensures Joined(w, n, Stage(o, w.store, 3), Next(o, r, On(|w.conns|, SendHello(true))))
  {
    hide AllInv, OwnSubs, CountLive, St.Wf, Next, Range, Joined;
    assert [] + [Hello(o.version, o.db)] == Stage(o, w.store, 3).wire;
    JoinedStep(o, w, n, Stage(o, w.store, 2), r, SendHello(true),
               Stage(o, w.store, 3).srv, Some(Hello(o.version, o.db)));
  }

  lemma SnapshotStep(o: Options, w: World, n: int, r: World)
    requires w.World? && Joined(w, n, Stage(o, w.store, 3), r) && WorldInv(o, r)
    ensures Joined(w, n, Stage(o, w.store, 4), Next(o, r, On(|w.conns|, TakeSnapshot)))
  {
    hide AllInv, OwnSubs, CountLive, St.Wf, Next, Range, Joined;
    JoinedStep(o, w, n, Stage(o, w.store, 3), r, TakeSnapshot, Stage(o, w.store, 4).srv, None);
  }

  lemma ItemsStep(o: Options, w: World, n: int, r: World)
    requires w.World? && Joined(w, n, Stage(o, w.store, 4), r) && WorldInv(o, r)
    ensures Joined(w, n, Stage(o, w.store, 5), Next(o, r, On(|w.conns|, SendSnapshot(true))))
  {
    hide AllInv, OwnSubs, CountLive, St.Wf, Next, Range, Joined;
    assert Stage(o, w.store, 4).wire + [Snapshot(Stage(o, w.store, 4).srv.items)] == Stage(o, w.store, 5).wire;
    JoinedStep(o, w, n, Stage(o, w.store, 4), r, SendSnapshot(true),
               Stage(o, w.store, 5).srv, Some(Snapshot(Stage(o, w.store, 4).srv.items)));
  }

  lemma CountStep(o: Options, w: World, n: int, r: World)
    requires w.World? && Joined(w, n, FRESH, r) && WorldInv(o, r)
    ensures Joined(w, n + 1, Stage(o, w.store, 2), Next(o, r, On(|w.conns|, CountIn)))
  {
    hide AllInv, OwnSubs, CountLive, St.Wf, Next, Range, Joined;
    JoinedStep(o, w, n, FRESH, r, CountIn, Stage(o, w.store, 2).srv, None);
  }

  lemma CanGreet(o: Options, w: World)
    requires WorldInv(o, w)
    ensures Joined(w, w.clients + 1, Stage(o, w.store, 5), Run(o, w, Serve(|w.conns|)[..5]))
  {
    hide AllInv, OwnSubs, CountLive, St.Wf, Next, Joined, ServerStep, Stage, Run;
    var moves := Serve(|w.conns|);
    CountStart(o, w);
    RunStep(o, w, moves, 2);
    HelloStep(o, w, w.clients + 1, Run(o, w, moves[..2]));
    RunStep(o, w, moves, 3);
    SnapshotStep(o, w, w.clients + 1, Run(o, w, moves[..3]));
    RunStep(o, w, moves, 4);
    ItemsStep(o, w, w.clients + 1, Run(o, w, moves[..4]));
  }

  lemma CountStart(o: Options, w: World)
    requires WorldInv(o, w)
    ensures Joined(w, w.clients + 1, Stage(o, w.store, 2), Run(o, w, Serve(|w.conns|)[..2]))
  {
    hide AllInv, OwnSubs, CountLive, St.Wf, Next, Joined, ServerStep, Stage, Run;
    var moves := Serve(|w.conns|);
    RunNone(o, w, moves);
    RunStep(o, w, moves, 0);
    JoinedFresh(o, w);
    RunStep(o, w, moves, 1);
    CountStep(o, w, w.clients, Run(o, w, moves[..1]));
  }

  lemma RunNone(o: Options, w: World, moves: seq<Move>)
    requires WorldInv(o, w)
    ensures Run(o, w, moves[..0]) == w
  {
    hide AllInv, OwnSubs, CountLive, St.Wf;
  }

  /** Another connection can be served at any time: it is counted, greeted with its snapshot and
      registered, and nobody else notices. */
  lemma CanServe(o: Options, w: World)
    requires WorldInv(o, w)
    ensures var s, r := w.store, Run(o, w, Serve(|w.conns|));
            && Joined(World(r.store, w.clients, w.conns), w.clients + 1, Served(o, s), r)
            && r.store == s.(chans := s.chans + [St.Chan(Ev.AllowAll, |s.history|, None, [], [], [])],
                             subs := s.subs + [|s.chans|])
  {
    hide AllInv, OwnSubs, CountLive, St.Wf, Next, Range, Run;
    var moves := Serve(|w.conns|);
    CanGreet(o, w);
    RunStep(o, w, moves, 5);
    assert moves[..6] == moves;
    SubscribeMove(o, Run(o, w, moves[..5]), |w.conns|);
  }

  lemma SubscribeMove(o: Options, w: World, i: nat)
    requires WorldInv(o, w) && i < |w.conns| && w.conns[i].srv.pc == Sent
    ensures var s, c, r := w.store, w.conns[i], Next(o, w, On(i, SubscribeAll));
            && r.World? && r.clients == w.clients
            && r.conns == w.conns[i := c.(srv := c.srv.(pc := Streaming, sub := Some(|s.chans|), pumpOn := true, tickOn := true))]
            && r.store == s.(chans := s.chans + [St.Chan(Ev.AllowAll, |s.history|, None, [], [], [])],
                             subs := s.subs + [|s.chans|])
  {
    hide AllInv, OwnSubs, CountLive, St.Wf;
    WfRegistered(w.store);
  }

  // ---- leaving ----

  /** The deferred calls once the read loop has returned. */
  function Leave(i: nat): seq<Move> {
    [On(i, Return), On(i, Unsubscribe), On(i, StopPump), On(i, CountOut), On(i, Close)]
  }

  /** r is w after connection i's handler has come to pc, with n clients, and its subscription closed. */
  ghost predicate Left(w: World, i: nat, pc: Pc, stopped: bool, n: int, r: World)
    requires w.World? && i < |w.conns| && w.conns[i].srv.sub.Some?
  {
    var c, id := w.conns[i], w.conns[i].srv.sub.value;
    && id < |w.store.chans| && r.World?
    && r == World(r.store, n, w.conns[i := c.(srv := c.srv.(pc := pc, stopped := stopped))])
    && r.store == w.store.(chans := r.store.chans, subs := r.store.subs)
    && r.store.chans == w.store.chans[id := w.store.chans[id].(closedAt := Some(|w.store.history|))]
    && (forall x :: x in r.store.subs <==> x in w.store.subs && x != id)
  }

  lemma UnsubscribeMove(o: Options, w: World, i: nat)
    requires WorldInv(o, w) && i < |w.conns| && w.conns[i].srv.pc == Returning
    ensures w.conns[i].srv.sub.Some?
    ensures Left(w, i, Unsubscribed, w.conns[i].srv.stopped, w.clients, Next(o, w, On(i, Unsubscribe)))
  {
    hide AllInv, OwnSubs, CountLive, St.Step, St.Wf, ConnInv;
    AllInvAt(o, w.store, w.conns, i);
    StillRegistered(o, w.store, w.conns[i]);
    WfRegistered(w.store);
    StoreProps.UnsubscribeEffect(w.store, w.conns[i].srv.sub.value);
  }

  lemma StillRegistered(o: Options, s: St.State, c: Conn)
    requires St.Wf(s) && ConnInv(o, s, c) && c.srv.pc == Returning
    ensures c.srv.sub.Some? && c.srv.sub.value < |s.chans| && c.srv.sub.value in s.subs
  {
    hide WireShape, PeerShape, Books;
  }

  lemma LeftStep(o: Options, w: World, i: nat, a: Action, pc: Pc, stopped: bool, n: int, r: World, pc': Pc, stopped': bool)
    requires w.World? && i < |w.conns| && w.conns[i].srv.sub.Some?
    requires Left(w, i, pc, stopped, n, r) && WorldInv(o, r) && !OfClient(a)
    requires ServerStep(o, r.store, n, r.conns[i].srv, a) == Effect(w.conns[i].srv.(pc := pc', stopped := stopped'), None, None)
    ensures Left(w, i, pc', stopped', n + Counts(r.conns[i].srv, a), Next(o, r, On(i, a)))
  {
    hide AllInv, OwnSubs, CountLive, ServerStep, Counts, St.Wf, Next;
    HandlerMoves(o, r, i, a, w.conns[i].srv.(pc := pc', stopped := stopped'), None);
  }

  /** A served connection can leave at any time: its subscription is closed and removed, it is no longer
      counted, and nobody else notices. */
  lemma CanLeave(o: Options, w: World, i: nat)
    requires WorldInv(o, w) && i < |w.conns| && w.conns[i].srv.pc == Streaming
    ensures w.conns[i].srv.sub.Some?
    ensures Left(w, i, Gone, true, w.clients - 1, Run(o, w, Leave(i)))
  {
    hide AllInv, OwnSubs, CountLive, St.Wf, Next, Run, Left, ServerStep;
    var moves, v := Leave(i), w.conns[i].srv;
    LeaveStart(o, w, i);
    var r := Run(o, w, moves[..2]);
    RunStep(o, w, moves, 2);
    LeaveStep(o, w, i, StopPump, Unsubscribed, v.stopped, w.clients, r);
    RunStep(o, w, moves, 3);
    LeaveStep(o, w, i, CountOut, Pc.Leaving, true, w.clients, Run(o, w, moves[..3]));
    RunStep(o, w, moves, 4);
    LeaveStep(o, w, i, Close, Uncounted, true, w.clients - 1, Run(o, w, moves[..4]));
    assert moves[..5] == moves;
  }

  lemma LeaveStep(o: Options, w: World, i: nat, a: Action, pc: Pc, stopped: bool, n: int, r: World)
    requires w.World? && i < |w.conns| && w.conns[i].srv.sub.Some?
    requires Left(w, i, pc, stopped, n, r) && WorldInv(o, r)
    requires (pc == Unsubscribed && a == StopPump) || (stopped && pc == Pc.Leaving && a == CountOut) || (stopped && pc == Uncounted && a == Close)
    ensures a == StopPump ==> Left(w, i, Pc.Leaving, true, n, Next(o, r, On(i, a)))
    ensures a == CountOut ==> Left(w, i, Uncounted, true, n - 1, Next(o, r, On(i, a)))
    ensures a == Close ==> Left(w, i, Gone, true, n, Next(o, r, On(i, a)))
  {
    hide AllInv, OwnSubs, CountLive, St.Wf, Next;
    var to := if a == StopPump then Pc.Leaving else if a == CountOut then Uncounted else Gone;
    LeftStep(o, w, i, a, pc, stopped, n, r, to, true);
  }

  lemma LeaveStart(o: Options, w: World, i: nat)
    requires WorldInv(o, w) && i < |w.conns| && w.conns[i].srv.pc == Streaming
    ensures w.conns[i].srv.sub.Some?
    ensures Left(w, i, Unsubscribed, w.conns[i].srv.stopped, w.clients, Run(o, w, Leave(i)[..2]))
  {
    hide AllInv, OwnSubs, CountLive, St.Wf, Next, Left;
    var moves, c := Leave(i), w.conns[i];
    assert Run(o, w, moves[..0]) == w;
    RunStep(o, w, moves, 0);
    HandlerMoves(o, w, i, Return, c.srv.(pc := Returning), None);
    var r := Run(o, w, moves[..1]);
    RunStep(o, w, moves, 1);
    UnsubscribeMove(o, r, i);
    LeftFrom(w, i, c.srv.stopped, r, Run(o, w, moves[..2]));
  }

  lemma LeftFrom(w: World, i: nat, stopped: bool, n: World, r: World)
    requires w.World? && i < |w.conns| && w.conns[i].srv.sub.Some?
    requires n == w.(conns := w.conns[i := w.conns[i].(srv := w.conns[i].srv.(pc := Returning))])
    requires Left(n, i, Unsubscribed, stopped, w.clients, r)
    ensures Left(w, i, Unsubscribed, stopped, w.clients, r)
  {
  }

  /** r is w with connection i's server at v. */
  ghost predicate At(w: World, i: nat, v: Server, r: World)
    requires w.World? && i < |w.conns|
  {
    r == w.(conns := w.conns[i := w.conns[i].(srv := v)])
  }

  lemma HelperStep(o: Options, w: World, i: nat, a: Action, v: Server, r: World, v': Server)
    requires w.World? && i < |w.conns| && At(w, i, v, r) && WorldInv(o, r)
    requires (a.PumpSend? && !a.ok) || a.PumpExit? || a.TickExit?
    requires ServerStep(o, r.store, r.clients, v, a) == Effect(v', None, None)
    ensures At(w, i, v', Next(o, r, On(i, a)))
  {
    hide AllInv, OwnSubs, CountLive, ServerStep, St.Wf, Next;
    HandlerMoves(o, r, i, a, v', None);
    assert w.conns[i := w.conns[i].(srv := v)][i := w.conns[i].(srv := v')] == w.conns[i := w.conns[i].(srv := v')];
  }

  /** The moves that end both helper goroutines. */
  function EndHelpers(i: nat): seq<Move> {
    [On(i, PumpSend(false)), On(i, PumpExit), On(i, TickExit)]
  }

  /** What the pump's failing send makes of the server, if it holds an event. */
  function HandLost(v: Server): Server {
    if v.pumpOn && v.hand.Some?
    then v.(pumpOn := false, hand := None, lost := v.lost + [v.hand.value], broken := true)
    else v
  }

  lemma HelperEffects(o: Options, s: St.State, clients: int, v: Server)
    requires v.stopped
    ensures ServerStep(o, s, clients, v, PumpSend(false)) == Effect(HandLost(v), None, None)
    ensures ServerStep(o, s, clients, HandLost(v), PumpExit) == Effect(HandLost(v).(pumpOn := false), None, None)
    ensures ServerStep(o, s, clients, HandLost(v).(pumpOn := false), TickExit)
            == Effect(HandLost(v).(pumpOn := false, tickOn := false), None, None)
  {
    hide Queue, ChanClosed, StatsReply;
  }

  /** Once a connection is stopped its pump and its ticker can end; an event the pump still held is lost. */
  lemma HelpersEnd(o: Options, w: World, i: nat)
    requires WorldInv(o, w) && i < |w.conns| && w.conns[i].srv.stopped
    ensures At(w, i, HandLost(w.conns[i].srv).(pumpOn := false, tickOn := false), Run(o, w, EndHelpers(i)))
  {
    hide AllInv, OwnSubs, CountLive, ServerStep, St.Wf, Next, Run, At, HandLost;
    var moves, v := EndHelpers(i), w.conns[i].srv;
    HelperEffects(o, w.store, w.clients, v);
    RunNone(o, w, moves);
    AtStart(w, i);
    RunStep(o, w, moves, 0);
    HelperStep(o, w, i, PumpSend(false), v, w, HandLost(v));
    RunStep(o, w, moves, 1);
    AtSame(w, i, HandLost(v), Run(o, w, moves[..1]));
    HelperStep(o, w, i, PumpExit, HandLost(v), Run(o, w, moves[..1]), HandLost(v).(pumpOn := false));
    RunStep(o, w, moves, 2);
    AtSame(w, i, HandLost(v).(pumpOn := false), Run(o, w, moves[..2]));
    HelperStep(o, w, i, TickExit, HandLost(v).(pumpOn := false), Run(o, w, moves[..2]), HandLost(v).(pumpOn := false, tickOn := false));
    assert moves[..3] == moves;
  }

  lemma AtStart(w: World, i: nat)
    requires w.World? && i < |w.conns|
    ensures At(w, i, w.conns[i].srv, w)
  {
    assert w.conns[i := w.conns[i].(srv := w.conns[i].srv)] == w.conns;
  }

  lemma AtSame(w: World, i: nat, v: Server, r: World)
    requires w.World? && i < |w.conns| && At(w, i, v, r)
    ensures r.World? && r.store == w.store && r.clients == w.clients
  {
  }
}
