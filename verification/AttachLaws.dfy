/** What each goroutine of the attach server does with one step, and that nothing is lost on a
    connection whose writes work. */
module AttachLaws {
  import opened Seqs
  import opened ClientSpec
  import opened Attach
  import opened AttachInv
  import opened AttachProps
  import opened AttachCounts
  import Ev = Events
  import St = StoreSpec

  // ---- single sends ----

  /** The reply to a ping, and the ticker's message: pushes, clients, and buffered events. */
  predicate IsStats(env: Envelope<Item>, s: St.State, clients: int) {
    && env.StatsMsg? && env.stats.received == |s.history| && env.stats.clients == clients
    && env.stats.buffered == if |s.history| < s.capacity then |s.history| else s.capacity
  }

  /** A write that works puts its envelope on the wire, and costs nothing. */
  lemma WorkingSends(o: Options, s: St.State, clients: int, v: Server)
    requires !v.broken && v.pc != Gone
    ensures v.pumpOn && v.hand.Some? ==>
              ServerStep(o, s, clients, v, PumpSend(true)) == Effect(v.(hand := None), Some(EventMsg(v.hand.value)), None)
    ensures v.pc == Counted ==>
              ServerStep(o, s, clients, v, SendHello(true)) == Effect(v.(pc := Greeted), Some(Hello(o.version, o.db)), None)
    ensures v.pc == Snapped ==>
              ServerStep(o, s, clients, v, SendSnapshot(true)) == Effect(v.(pc := Sent), Some(Snapshot(v.items)), None)
    ensures v.pc == Streaming ==>
              var eff := ServerStep(o, s, clients, v, Reply(PingReq, true));
              eff.srv == v && eff.op == None && eff.out.Some? && IsStats(eff.out.value, s, clients)
    ensures v.pc == Streaming ==> ServerStep(o, s, clients, v, Reply(SubscribeReq, true)) == Effect(v, Some(Pong), None)
    ensures v.tickOn ==>
              var eff := ServerStep(o, s, clients, v, Tick(true));
              eff.srv == v && eff.op == None && eff.out.Some? && IsStats(eff.out.value, s, clients)
  {
  }

  /** A write that fails sends nothing and breaks the connection; the handler's own ends the handler, a
      helper goroutine's stops both helpers, and what it carried is lost. */
  lemma FailingSends(o: Options, s: St.State, clients: int, v: Server, req: Request)
    ensures v.pumpOn && v.hand.Some? ==>
              ServerStep(o, s, clients, v, PumpSend(false))
              == Effect(v.(hand := None, lost := v.lost + [v.hand.value], broken := true, stopped := true, pumpOn := false), None, None)
    ensures v.pc == Counted ==>
              ServerStep(o, s, clients, v, SendHello(false)) == Effect(v.(pc := Leaving, broken := true), None, None)
    ensures v.pc == Snapped ==>
              ServerStep(o, s, clients, v, SendSnapshot(false))
              == Effect(v.(pc := Leaving, broken := true, lost := v.lost + v.items), None, None)
    ensures v.pc == Streaming && !req.OtherReq? ==>
              ServerStep(o, s, clients, v, Reply(req, false)) == Effect(v.(pc := Returning, broken := true), None, None)
    ensures v.tickOn ==>
              ServerStep(o, s, clients, v, Tick(false)) == Effect(v.(broken := true, stopped := true, tickOn := false), None, None)
  {
    hide Range, StatsReply, Queue, ChanClosed;
  }

  /** Once a write has failed nothing more is sent. */
  lemma BrokenStays(o: Options, s: St.State, clients: int, v: Server, a: Action)
    requires v.broken
    ensures ServerStep(o, s, clients, v, a).out == None && ServerStep(o, s, clients, v, a).srv.broken
  {
    hide Range, StatsReply, Queue, ChanClosed;
  }

  // ---- connections whose writes work ----

  predicate Fails(a: Action) {
    (a.SendHello? || a.SendSnapshot? || a.PumpSend? || a.Tick? || a.Reply?) && !a.ok
  }

  /** No write on connection i fails and its handler does not close it. */
  ghost predicate Works(moves: seq<Move>, i: nat) {
    forall k :: 0 <= k < |moves| && moves[k].On? && moves[k].i == i ==> !Fails(moves[k].a) && !moves[k].a.Close?
  }

  predicate Healthy(v: Server) {
    && !v.broken && v.lost == [] && v.pc != Gone
    && (v.pc == Streaming ==> v.pumpOn && v.tickOn && !v.stopped)
    && (v.pc == Fresh || v.pc == Counted || v.pc == Greeted || v.pc == Snapped || v.pc == Sent ==> !v.stopped)
    && (v.pc == Returning || v.pc == Unsubscribed ==> !v.stopped)
  }

  lemma HandlerHealthy(o: Options, s: St.State, clients: int, v: Server, a: Action)
    requires Healthy(v) && !Fails(a) && !a.Close?
    ensures Healthy(Handler(o, s, clients, v, a).srv)
  {
    hide Range, Max, StatsReply;
  }

  lemma HelpersHealthy(s: St.State, clients: int, v: Server, a: Action)
    requires Healthy(v) && !Fails(a) && (v.pc == Streaming ==> !ChanClosed(s, v))
    ensures Healthy(Helpers(s, clients, v, a).srv)
  {
    hide ChanClosed, Queue, StatsReply;
  }

  lemma OpenWhileStreaming(o: Options, s: St.State, c: Conn)
    requires ConnInv(o, s, c) && c.srv.pc == Streaming
    ensures c.srv.sub.Some? && c.srv.sub.value < |s.chans| && !ChanClosed(s, c.srv)
    ensures s.chans[c.srv.sub.value].closedAt.None?
  {
    hide WireShape, PeerShape, Books;
  }

  lemma MovedHealthy(o: Options, s: St.State, clients: int, c: Conn, a: Action)
    requires ConnInv(o, s, c) && Healthy(c.srv) && !Fails(a) && !a.Close?
    ensures Healthy(Moved(o, s, clients, c, a).srv)
  {
    hide ConnInv, Healthy, Handler, Helpers, ChanClosed;
    if c.srv.pc == Streaming {
      OpenWhileStreaming(o, s, c);
    }
    HandlerHealthy(o, s, clients, c.srv, a);
    HelpersHealthy(s, clients, c.srv, a);
  }

  /** Only its own actions change a connection. */
  lemma NextConns(o: Options, w: World, m: Move)
    requires WorldInv(o, w)
    ensures Next(o, w, m).World?
    ensures Next(o, w, m).conns
            == match m
               case Accept => w.conns + [FRESH]
               case On(i, a) => if i < |w.conns| then w.conns[i := Moved(o, w.store, w.clients, w.conns[i], a)] else w.conns
               case Env(_) => w.conns
  {
    hide AllInv, OwnSubs, CountLive, Moved, ConnMove, St.Wf;
    NextKeeps(o, w, m);
    WfRegistered(w.store);
    if m.On? && m.i < |w.conns| {
      MoveConns(o, w, m.i, m.a);
    }
  }

  lemma {:induction false} WorksHealthy(o: Options, w: World, moves: seq<Move>, i: nat)
    requires WorldInv(o, w) && Works(moves, i)
    requires i < |w.conns| ==> Healthy(w.conns[i].srv)
    ensures var r := Run(o, w, moves); r.World? && (i < |r.conns| ==> Healthy(r.conns[i].srv))
    decreases |moves|
  {
    hide Next, Healthy, AllInv, Moved, ConnInv;
    if moves != [] {
      var k := |moves| - 1;
      WorksInit(moves, i);
      WorksHealthy(o, w, moves[..k], i);
      var r := Run(o, w, moves[..k]);
      var m := moves[k];
      NextConns(o, r, m);
      if m.On? && m.i == i && i < |r.conns| {
        AllInvAt(o, r.store, r.conns, i);
        MovedHealthy(o, r.store, r.clients, r.conns[i], m.a);
      } else if m.Accept? && i == |r.conns| {
        FreshHealthy();
      }
    }
  }

  lemma WorksInit(moves: seq<Move>, i: nat)
    requires Works(moves, i) && moves != []
    ensures Works(moves[..|moves| - 1], i)
    ensures var m := moves[|moves| - 1]; m.On? && m.i == i ==> !Fails(m.a) && !m.a.Close?
  {
  }

  lemma FreshHealthy()
    ensures Healthy(FRESH.srv)
  {
  }

  /** Only a full queue costs this connection an item; with neither queue ever full, everything due is under
      way or has arrived: positions [p - capacity, p), then [q, now). */
  ghost predicate OnlyDrops(s: St.State, c: Conn) {
    && !c.srv.broken && c.srv.lost == []
    && Missed(s, c) == Elems(QueueDrops(s, c.srv)) + Elems(c.peer.client.dropped)
    && (c.srv.sub.Some? ==>
         && c.srv.sub.value < |s.chans| && InRange(c)
         && var p, sub := c.srv.snapAt, s.chans[c.srv.sub.value];
            (sub.dropped == [] && c.peer.client.dropped == [] ==>
              Flow(s, c) == Range(Max(0, p - s.capacity), p) + Range(sub.since, St.Until(sub, s.history))))
  }

  /** On a connection none of whose writes failed, nothing is lost but what a full queue drops. */
  lemma NothingLost(o: Options, s: St.State, moves: seq<Move>, i: nat)
    requires St.Wf(s) && s.capacity > 0 && Works(moves, i)
    ensures var w := Reach(o, s, moves);
            i < |w.conns| ==> Healthy(w.conns[i].srv) && OnlyDrops(w.store, w.conns[i])
  {
    hide Run, AllInv, ConnInv, Flow, Without, Range;
    IdleInv(o, s);
    RunCapacity(o, Idle(s), moves);
    WorksHealthy(o, Idle(s), moves, i);
    var w := Reach(o, s, moves);
    if i < |w.conns| && w.conns[i].srv.sub.Some? {
      AttachCoverage(o, s, moves, i);
      var c := w.conns[i];
      if w.store.chans[c.srv.sub.value].dropped == [] && c.peer.client.dropped == [] {
        assert Missed(w.store, c) == {};
      }
    }
  }
}
