/** What the attach protocol guarantees over every run of the whole system. */
module AttachProps {
  import opened Seqs
  import opened ClientSpec
  import opened Attach
  import opened AttachInv
  import Ev = Events
  import St = StoreSpec
  import StoreProps

  /** Between clients.Add(1) and clients.Add(-1). */
  predicate Live(v: Server) {
    v.pc != Fresh && v.pc != Uncounted && v.pc != Gone
  }

  function CountLive(conns: seq<Conn>): nat {
    if conns == [] then 0
    else
      var k := |conns| - 1;
      CountLive(conns[..k]) + if Live(conns[k].srv) then 1 else 0
  }

  ghost predicate OwnSubs(conns: seq<Conn>) {
    forall i, j :: 0 <= i < j < |conns| && conns[i].srv.sub.Some? ==> conns[i].srv.sub != conns[j].srv.sub
  }

  ghost predicate AllInv(o: Options, s: St.State, conns: seq<Conn>) {
    conns != [] ==>
      var k := |conns| - 1;
      AllInv(o, s, conns[..k]) && ConnInv(o, s, conns[k])
  }

  lemma {:induction false} AllInvAt(o: Options, s: St.State, conns: seq<Conn>, i: nat)
    requires AllInv(o, s, conns) && i < |conns|
    ensures ConnInv(o, s, conns[i])
    decreases |conns|
  {
    hide ConnInv;
    if i < |conns| - 1 {
      AllInvAt(o, s, conns[..|conns| - 1], i);
    }
  }

  ghost predicate WorldInv(o: Options, w: World) {
    && w.World?
    && St.Wf(w.store) && w.store.capacity > 0
    && OwnSubs(w.conns)
    && AllInv(o, w.store, w.conns)
    && w.clients == CountLive(w.conns)
  }

  lemma {:induction false} CountLiveUpdate(conns: seq<Conn>, i: nat, d: Conn)
    requires i < |conns|
    ensures CountLive(conns[i := d])
            == CountLive(conns) - (if Live(conns[i].srv) then 1 else 0) + (if Live(d.srv) then 1 else 0)
    decreases |conns|
  {
    var k := |conns| - 1;
    var t := conns[i := d];
    if i < k {
      CountLiveUpdate(conns[..k], i, d);
      assert t[..k] == conns[..k][i := d];
    } else {
      assert t[..k] == conns[..k];
    }
  }

  // ---- one move ----

  lemma FreshKeeps(o: Options, s: St.State)
    ensures ConnInv(o, s, FRESH)
  {
    assert Flow(s, FRESH) == [] && Due(s, FRESH.srv) == [] && Missed(s, FRESH) == {};
    WithoutNothing([]);
  }

  function After(c: Conn, eff: Effect): Conn {
    Conn(eff.srv, Append(c.wire, eff.out), c.peer)
  }

  /** The step's store operation, if any, leads from s to t. */
  ghost predicate OpLeads(s: St.State, op: Option<St.Op>, t: St.State)
    requires St.Registered(s.chans, s.subs)
  {
    if op.None? then t == s else St.Step(s, op.value) == St.Ok(t)
  }

  lemma PlainGood(o: Options, s: St.State, clients: int, c: Conn, a: Action)
    requires ConnInv(o, s, c) && Plain(a)
    ensures var eff := ServerStep(o, s, clients, c.srv, a);
            eff.op == None && ConnInv(o, s, After(c, eff))
  {
    var eff := ServerStep(o, s, clients, c.srv, a);
    PlainStep(o, s, clients, c.srv, |c.wire|, a);
    PlainKeeps(o, s, c, After(c, eff), eff.out);
  }

  lemma SnapshotGood(o: Options, s: St.State, clients: int, c: Conn, a: Action)
    requires ConnInv(o, s, c) && (a.TakeSnapshot? || a.SendSnapshot?)
    ensures var eff := ServerStep(o, s, clients, c.srv, a);
            eff.op == None && ConnInv(o, s, After(c, eff))
  {
    var d := After(c, ServerStep(o, s, clients, c.srv, a));
    if a.TakeSnapshot? && c.srv.pc == Greeted {
      SnapshotTaken(o, s, c, d);
    } else if a.SendSnapshot? && c.srv.pc == Snapped {
      if Sends(c.srv, a.ok) {
        SnapshotWritten(o, s, c, d);
      } else {
        SnapshotLost(o, s, c, d);
      }
    } else {
      assert d == c;
    }
  }

  lemma PumpSendGood(o: Options, s: St.State, clients: int, c: Conn, a: Action)
    requires ConnInv(o, s, c) && a.PumpSend?
    ensures var eff := ServerStep(o, s, clients, c.srv, a);
            eff.op == None && ConnInv(o, s, After(c, eff))
  {
    var d := After(c, ServerStep(o, s, clients, c.srv, a));
    if c.srv.pumpOn && c.srv.hand.Some? {
      if Sends(c.srv, a.ok) {
        PumpSendKeeps(o, s, c, d);
      } else {
        PumpFailKeeps(o, s, c, d);
      }
    } else {
      assert d == c;
    }
  }

  lemma SubscribeGood(o: Options, s: St.State, clients: int, c: Conn) returns (t: St.State)
    requires St.Wf(s) && ConnInv(o, s, c)
    ensures var eff := ServerStep(o, s, clients, c.srv, SubscribeAll);
            OpLeads(s, eff.op, t) && ConnInv(o, t, After(c, eff))
  {
    t := s;
    if c.srv.pc == Sent {
      t := St.Step(s, St.Subscribe(Ev.AllowAll)).s;
      SubscribeKeeps(o, s, c, t, After(c, ServerStep(o, s, clients, c.srv, SubscribeAll)));
    }
  }

  lemma UnsubscribeGood(o: Options, s: St.State, clients: int, c: Conn) returns (t: St.State)
    requires St.Wf(s) && ConnInv(o, s, c)
    ensures var eff := ServerStep(o, s, clients, c.srv, Unsubscribe);
            OpLeads(s, eff.op, t) && ConnInv(o, t, After(c, eff))
  {
    t := s;
    if c.srv.pc == Returning {
      StoreProps.UnsubscribeEffect(s, c.srv.sub.value);
      t := St.Step(s, St.Unsubscribe(c.srv.sub.value)).s;
      UnsubscribeKeeps(o, s, c, t, After(c, ServerStep(o, s, clients, c.srv, Unsubscribe)));
    }
  }

  lemma SubIsKnown(o: Options, s: St.State, c: Conn)
    requires ConnInv(o, s, c)
    ensures c.srv.sub.Some? ==> c.srv.sub.value < |s.chans|
  {
    hide WireShape, PeerShape, Books;
  }

  lemma PumpTakeEffect(o: Options, s: St.State, clients: int, v: Server)
    ensures var eff := ServerStep(o, s, clients, v, PumpTake);
            && eff.out == None
            && (eff.op == None ==> eff.srv == v)
            && (eff.op.Some? ==>
                 && v.hand.None? && v.sub.Some? && Queue(s, v) != []
                 && eff.srv == v.(hand := Some(Queue(s, v)[0])) && eff.op == Some(St.Receive(v.sub.value)))
  {
    hide Handler, Queue;
  }

  lemma ReceiveLeads(s: St.State, id: nat)
    requires St.Wf(s) && id < |s.chans|
    ensures St.Step(s, St.Receive(id)).Ok? && Received(s, St.Step(s, St.Receive(id)).s, id)
  {
    hide St.Broadcast, St.IndexOf;
  }

  lemma WfRegistered(s: St.State)
    requires St.Wf(s)
    ensures St.Registered(s.chans, s.subs)
  {
  }

  lemma PumpTakeGood(o: Options, s: St.State, clients: int, c: Conn) returns (t: St.State)
    requires St.Wf(s) && ConnInv(o, s, c)
    ensures var eff := ServerStep(o, s, clients, c.srv, PumpTake);
            OpLeads(s, eff.op, t) && ConnInv(o, t, After(c, eff))
  {
    hide ConnInv, ServerStep, St.Wf, St.Step, Received, Queue;
    t := s;
    var eff := ServerStep(o, s, clients, c.srv, PumpTake);
    PumpTakeEffect(o, s, clients, c.srv);
    SubIsKnown(o, s, c);
    var d := After(c, eff);
    if eff.op.Some? {
      WfRegistered(s);
      ReceiveLeads(s, c.srv.sub.value);
      t := St.Step(s, eff.op.value).s;
      PumpTakeKeeps(o, s, c, t, d);
    } else {
      assert d == c;
    }
  }

  lemma ServerStepGood(o: Options, s: St.State, clients: int, c: Conn, a: Action) returns (t: St.State)
    requires St.Wf(s) && ConnInv(o, s, c) && !OfClient(a)
    ensures var eff := ServerStep(o, s, clients, c.srv, a);
            OpLeads(s, eff.op, t) && ConnInv(o, t, After(c, eff))
  {
    t := s;
    if Plain(a) {
      PlainGood(o, s, clients, c, a);
    } else if a.TakeSnapshot? || a.SendSnapshot? {
      SnapshotGood(o, s, clients, c, a);
    } else if a.PumpSend? {
      PumpSendGood(o, s, clients, c, a);
    } else if a.SubscribeAll? {
      t := SubscribeGood(o, s, clients, c);
    } else if a.Unsubscribe? {
      t := UnsubscribeGood(o, s, clients, c);
    } else {
      t := PumpTakeGood(o, s, clients, c);
    }
  }

  /** A connection only ever makes its one subscription, reads it and closes it. */
  lemma ServerStepOwn(o: Options, s: St.State, clients: int, c: Conn, a: Action)
    requires ConnInv(o, s, c)
    ensures var v := c.srv; var eff := ServerStep(o, s, clients, v, a);
            if eff.op.None? then eff.srv.sub == v.sub
            else if eff.op.value.Subscribe? then v.sub == None && eff.srv.sub == Some(|s.chans|)
            else (eff.op.value.Receive? || eff.op.value.Unsubscribe?) && v.sub == eff.srv.sub == Some(eff.op.value.id)
  {
    hide WireShape, PeerShape, Books;
  }

  lemma ServerStepCounts(o: Options, s: St.State, clients: int, v: Server, a: Action)
    ensures (if Live(ServerStep(o, s, clients, v, a).srv) then 1 else 0) == (if Live(v) then 1 else 0) + Counts(v, a)
  {
  }

  lemma ClientSideGood(o: Options, s: St.State, c: Conn, a: Action)
    requires ConnInv(o, s, c) && OfClient(a)
    ensures ConnInv(o, s, c.(peer := ClientSide(c.wire, c.peer, a)))
  {
    var d := c.(peer := ClientSide(c.wire, c.peer, a));
    if !a.ClientRead? {
      ClientOwnKeeps(o, s, c, d, a);
    } else if c.peer.read < |c.wire| && !c.peer.client.phase.Ended? {
      ClientReadKeeps(o, s, c, d);
    }
  }

  lemma {:induction false} AllInvUpdate(o: Options, s: St.State, conns: seq<Conn>, i: nat, d: Conn)
    requires AllInv(o, s, conns) && i < |conns| && ConnInv(o, s, d)
    ensures AllInv(o, s, conns[i := d])
    decreases |conns|
  {
    hide ConnInv;
    var k := |conns| - 1;
    var t := conns[i := d];
    if i < k {
      AllInvUpdate(o, s, conns[..k], i, d);
      assert t[..k] == conns[..k][i := d];
    } else {
      assert t[..k] == conns[..k];
    }
  }

  lemma OwnSubsUpdate(conns: seq<Conn>, i: nat, d: Conn, n: nat)
    requires i < |conns| && OwnSubs(conns)
    requires forall j :: 0 <= j < |conns| && conns[j].srv.sub.Some? ==> conns[j].srv.sub.value < n
    requires d.srv.sub == conns[i].srv.sub || d.srv.sub == Some(n)
    ensures OwnSubs(conns[i := d])
  {
  }

  /** An operation that is none of the connections' business keeps them all. */
  lemma {:induction false} AllInvOp(o: Options, s: St.State, op: St.Op, conns: seq<Conn>, t: St.State)
    requires St.Wf(s) && St.Step(s, op) == St.Ok(t) && AllInv(o, s, conns)
    requires op.Receive? || op.Unsubscribe? ==> forall j :: 0 <= j < |conns| ==> conns[j].srv.sub != Some(op.id)
    ensures AllInv(o, t, conns)
    decreases |conns|
  {
    hide ConnInv;
    if conns != [] {
      var k := |conns| - 1;
      AllInvOp(o, s, op, conns[..k], t);
      OpKeeps(o, s, op, conns[k], t);
    }
  }

  /** Connection i's own operation keeps the others, and its own step restored its own. */
  lemma {:induction false} AllInvOwnOp(o: Options, s: St.State, op: St.Op, conns: seq<Conn>, t: St.State, i: nat, d: Conn)
    requires St.Wf(s) && St.Step(s, op) == St.Ok(t) && AllInv(o, s, conns)
    requires i < |conns| && ConnInv(o, t, d)
    requires op.Receive? || op.Unsubscribe? ==>
               forall j :: 0 <= j < |conns| && j != i ==> conns[j].srv.sub != Some(op.id)
    ensures AllInv(o, t, conns[i := d])
    decreases |conns|
  {
    hide ConnInv;
    var k := |conns| - 1;
    var u := conns[i := d];
    if i < k {
      AllInvOwnOp(o, s, op, conns[..k], t, i, d);
      assert u[..k] == conns[..k][i := d];
      OpKeeps(o, s, op, conns[k], t);
    } else {
      assert u[..k] == conns[..k];
      AllInvOp(o, s, op, conns[..k], t);
    }
  }

  /** Subscriptions of live connections are ones the store handed out. */
  lemma {:induction false} SubsKnown(o: Options, s: St.State, conns: seq<Conn>)
    requires AllInv(o, s, conns)
    ensures forall j :: 0 <= j < |conns| && conns[j].srv.sub.Some? ==> conns[j].srv.sub.value < |s.chans|
    decreases |conns|
  {
    hide WireShape, PeerShape, Books;
    if conns != [] {
      SubsKnown(o, s, conns[..|conns| - 1]);
    }
  }

  lemma ClientMoveKeeps(o: Options, w: World, i: nat, a: Action)
    requires WorldInv(o, w) && i < |w.conns| && OfClient(a)
    ensures WorldInv(o, ConnMove(o, w, i, a))
  {
    hide ConnInv, AllInv, ClientSide;
    var c := w.conns[i];
    var d := c.(peer := ClientSide(c.wire, c.peer, a));
    AllInvAt(o, w.store, w.conns, i);
    ClientSideGood(o, w.store, c, a);
    AllInvUpdate(o, w.store, w.conns, i, d);
    CountLiveUpdate(w.conns, i, d);
  }

  lemma ServerMoveKeeps(o: Options, w: World, i: nat, a: Action)
    requires WorldInv(o, w) && i < |w.conns| && !OfClient(a)
    ensures WorldInv(o, ConnMove(o, w, i, a))
  {
    hide ConnInv, AllInv, ServerStep, Counts, Live;
    var s, c := w.store, w.conns[i];
    var eff := ServerStep(o, s, w.clients, c.srv, a);
    var d := After(c, eff);
    AllInvAt(o, s, w.conns, i);
    SubsKnown(o, s, w.conns);
    var t := ServerStepGood(o, s, w.clients, c, a);
    ServerStepOwn(o, s, w.clients, c, a);
    ServerStepCounts(o, s, w.clients, c.srv, a);
    CountLiveUpdate(w.conns, i, d);
    OwnSubsUpdate(w.conns, i, d, |s.chans|);
    if eff.op.None? {
      AllInvUpdate(o, s, w.conns, i, d);
    } else {
      St.StepKeepsWf(s, eff.op.value);
      AllInvOwnOp(o, s, eff.op.value, w.conns, t, i, d);
    }
  }

  lemma EnvKeeps(o: Options, w: World, op: St.Op)
    requires WorldInv(o, w) && EnvMay(w, op)
    requires op.Push? ==> w.store.capacity > 0
    ensures WorldInv(o, ApplyOp(w, Some(op)))
  {
    hide ConnInv, AllInv;
    St.StepKeepsWf(w.store, op);
    AllInvOp(o, w.store, op, w.conns, St.Step(w.store, op).s);
  }

  lemma AcceptKeeps(o: Options, w: World)
    requires WorldInv(o, w)
    ensures WorldInv(o, w.(conns := w.conns + [FRESH]))
  {
    hide AllInv, CountLive, OwnSubs, St.Wf;
    AllInvFresh(o, w.store, w.conns);
    CountLiveFresh(w.conns);
    OwnSubsFresh(w.conns);
  }

  lemma AllInvFresh(o: Options, s: St.State, conns: seq<Conn>)
    requires AllInv(o, s, conns)
    ensures AllInv(o, s, conns + [FRESH])
  {
    hide ConnInv;
    FreshKeeps(o, s);
    assert (conns + [FRESH])[..|conns|] == conns;
  }

  lemma CountLiveFresh(conns: seq<Conn>)
    ensures CountLive(conns + [FRESH]) == CountLive(conns)
  {
    assert (conns + [FRESH])[..|conns|] == conns;
  }

  lemma OwnSubsFresh(conns: seq<Conn>)
    requires OwnSubs(conns)
    ensures OwnSubs(conns + [FRESH])
  {
    var all := conns + [FRESH];
    forall i, j | 0 <= i < j < |all| && all[i].srv.sub.Some? ensures all[i].srv.sub != all[j].srv.sub {
      assert j < |conns| ==> conns[i].srv.sub != conns[j].srv.sub;
    }
  }

  /** Every move of the system keeps every connection's invariant and the client count. */
  lemma NextKeeps(o: Options, w: World, m: Move)
    requires WorldInv(o, w)
    ensures WorldInv(o, Next(o, w, m))
  {
    match m
    case Accept => AcceptKeeps(o, w);
    case On(i, a) =>
      if i < |w.conns| {
        if OfClient(a) {
          ClientMoveKeeps(o, w, i, a);
        } else {
          ServerMoveKeeps(o, w, i, a);
        }
      }
    case Env(op) =>
      if EnvMay(w, op) {
        EnvKeeps(o, w, op);
      }
  }

  // ---- whole runs ----

  /** The daemon before its first connection. */
  function Idle(s: St.State): World {
    World(s, 0, [])
  }

  ghost function Run(o: Options, w: World, moves: seq<Move>): (r: World)
    requires WorldInv(o, w)
    ensures WorldInv(o, r)
    decreases |moves|
  {
    if moves == [] then w
    else
      var r := Run(o, w, moves[..|moves| - 1]);
      NextKeeps(o, r, moves[|moves| - 1]);
      Next(o, r, moves[|moves| - 1])
  }

  lemma IdleInv(o: Options, s: St.State)
    requires St.Wf(s) && s.capacity > 0
    ensures WorldInv(o, Idle(s))
  {
  }

  /** The world after a run that starts with an idle daemon. */
  ghost function Reach(o: Options, s: St.State, moves: seq<Move>): (r: World)
    requires St.Wf(s) && s.capacity > 0
    ensures WorldInv(o, r)
  {
    IdleInv(o, s);
    Run(o, Idle(s), moves)
  }

  lemma FlowFacts(s: St.State, c: Conn)
    requires InRange(c) && SubShape(s, c.srv, |c.wire|) && Books(s, c)
    ensures Increasing(Flow(s, c)) && Below(Flow(s, c), |s.history|)
    ensures forall x :: x in Flow(s, c) <==> x in Due(s, c.srv) && x !in Missed(s, c)
  {
    DueIncreasing(s, c.srv, |c.wire|);
    hide SubShape, Flow, Due, Missed, Without;
    var due := Due(s, c.srv);
    WithoutMembers(due, Missed(s, c));
    MembersBelow(Flow(s, c), due, |s.history|);
  }

  lemma MembersBelow(a: seq<nat>, b: seq<nat>, n: nat)
    requires Below(b, n) && forall x :: x in a ==> x in b
    ensures Below(a, n)
  {
    forall k | 0 <= k < |a| ensures a[k] < n {
      assert a[k] in b;
    }
  }

  /** What has reached the client's store is the oldest part of the flow. */
  lemma PushedIsPrefix(s: St.State, c: Conn)
    requires InRange(c)
    ensures c.peer.pushed <= Flow(s, c)
    ensures forall x :: x in c.peer.pushed ==> x in Flow(s, c)
  {
    hide Items;
    var pushed, flow := c.peer.pushed, Flow(s, c);
    assert forall k :: 0 <= k < |pushed| ==> pushed[k] == flow[k];
  }

  /** The snapshot is pushed first, whole and in order, then the streamed items. */
  lemma SnapshotFirst(o: Options, items: seq<Item>, written: nat, q: Peer)
    requires PeerShape(o, items, written, q)
    ensures q.pushed <= items || items <= q.pushed
  {
    if |q.pushed| > q.replay {
      assert q.client.snapshot == q.client.snapshot[..q.replay] == q.pushed[..q.replay];
    } else {
      assert q.pushed == q.pushed[..q.replay];
    }
  }

  /** End-to-end safety: whatever the interleaving, what runAttach pushes into its own store is the
      snapshot and then streamed items, at strictly increasing positions of the daemon's history:
      nothing is repeated, reordered or invented. */
  lemma AttachSafety(o: Options, s: St.State, moves: seq<Move>, i: nat)
    requires St.Wf(s) && s.capacity > 0
    ensures var w := Reach(o, s, moves);
            i < |w.conns| ==>
            var c := w.conns[i];
            && Increasing(c.peer.pushed)
            && Below(c.peer.pushed, |w.store.history|)
            && (c.peer.pushed <= c.srv.items || c.srv.items <= c.peer.pushed)
            && (forall x :: x in c.peer.pushed ==> x in Due(w.store, c.srv) && x !in Missed(w.store, c))
  {
    hide Run, WireShape, SubShape, Books, Without, Flow, Due, Missed, AllInv, Items;
    var w := Reach(o, s, moves);
    if i < |w.conns| {
      var c := w.conns[i];
      AllInvAt(o, w.store, w.conns, i);
      FlowFacts(w.store, c);
      PushedIsPrefix(w.store, c);
      SnapshotFirst(o, c.srv.items, |c.wire|, c.peer);
    }
  }

  lemma CoverageOne(o: Options, s: St.State, c: Conn)
    requires ConnInv(o, s, c) && c.srv.sub.Some?
    ensures var id := c.srv.sub.value;
            && id < |s.chans|
            && c.srv.snapAt <= s.chans[id].since
            && Flow(s, c) == Without(Due(s, c.srv), Missed(s, c))
            && Due(s, c.srv) == Range(Max(0, c.srv.snapAt - s.capacity), c.srv.snapAt)
                                + Range(s.chans[id].since, St.Until(s.chans[id], s.history))
            && (forall x :: c.srv.snapAt <= x < s.chans[id].since ==> x !in Due(s, c.srv))
  {
    hide WireShape, PeerShape, Missed, Flow, Without;
  }

  /** Exact coverage of handleConn, snapshot at p then subscription at q: p <= q, the items under
      way are exactly the snapshot and the pushes since q except those dropped on the way, so with
      no drop they are history positions [p - capacity, p) and [q, now); the pushes in between are
      missing whatever happens, and nothing is ever duplicated. */
  lemma AttachCoverage(o: Options, s: St.State, moves: seq<Move>, i: nat)
    requires St.Wf(s) && s.capacity > 0 && i < |Reach(o, s, moves).conns|
    requires Reach(o, s, moves).conns[i].srv.sub.Some?
    ensures var w := Reach(o, s, moves); var c := w.conns[i];
            var id := c.srv.sub.value;
            && InRange(c) && id < |w.store.chans|
            && var p := c.srv.snapAt; var q := w.store.chans[id].since;
               var now := St.Until(w.store.chans[id], w.store.history);
               var full := Range(Max(0, p - s.capacity), p) + Range(q, now);
               && p <= q
               && Flow(w.store, c) == Without(full, Missed(w.store, c))
               && (Missed(w.store, c) == {} ==> Flow(w.store, c) == full)
               && (forall x :: p <= x < q ==> x !in c.peer.pushed && x !in Flow(w.store, c))
  {
    hide Run, WireShape, SubShape, Books, Without, Flow, Missed, AllInv;
    var w := Reach(o, s, moves);
    var c := w.conns[i];
    IdleInv(o, s);
    RunCapacity(o, Idle(s), moves);
    AllInvAt(o, w.store, w.conns, i);
    CoverageOne(o, w.store, c);
    FlowFacts(w.store, c);
    PushedIsPrefix(w.store, c);
    WithoutNothing(Due(w.store, c.srv));
  }

  /** Nothing is under way: the wire is read, and the pump, the daemon's queue and the client are empty. */
  predicate Quiet(s: St.State, c: Conn) {
    && c.peer.read == |c.wire| && c.srv.hand == None && Queue(s, c.srv) == []
    && c.peer.client.events == [] && c.peer.replay == |c.peer.client.snapshot|
  }

  lemma QuietFlow(o: Options, s: St.State, c: Conn)
    requires ConnInv(o, s, c) && c.srv.sub.Some? && Quiet(s, c)
    ensures InRange(c) && Flow(s, c) == c.peer.pushed
  {
    hide WireShape, Books;
    assert c.srv.pc != Snapped;
    assert Items(c.wire[c.peer.read..]) == [];
    assert c.peer.client.snapshot[c.peer.replay..] == [];
  }

  /** What the client has pushed is the snapshot taken at p and every push since the subscription at q,
      in order, except those dropped on the way; with no drop, positions [p - capacity, p) and [q, now). */
  ghost predicate HasArrived(s: St.State, c: Conn) {
    && c.srv.sub.Some? && c.srv.sub.value < |s.chans|
    && var p, q := c.srv.snapAt, s.chans[c.srv.sub.value].since;
       var full := Range(Max(0, p - s.capacity), p) + Range(q, St.Until(s.chans[c.srv.sub.value], s.history));
       && p <= q
       && c.peer.pushed == Without(full, Missed(s, c))
       && (Missed(s, c) == {} ==> c.peer.pushed == full)
  }

  /** What has arrived once nothing is under way. */
  lemma QuietCoverage(o: Options, s: St.State, moves: seq<Move>, i: nat)
    requires St.Wf(s) && s.capacity > 0
    ensures var w := Reach(o, s, moves);
            i < |w.conns| && w.conns[i].srv.sub.Some? && Quiet(w.store, w.conns[i]) ==>
              HasArrived(w.store, w.conns[i])
  {
    hide Run, Quiet, ConnInv, Flow, Without, Missed, AllInv, Range;
    var w := Reach(o, s, moves);
    if i < |w.conns| && w.conns[i].srv.sub.Some? && Quiet(w.store, w.conns[i]) {
      AttachCoverage(o, s, moves, i);
      IdleInv(o, s);
      RunCapacity(o, Idle(s), moves);
      AllInvAt(o, w.store, w.conns, i);
      QuietFlow(o, w.store, w.conns[i]);
    }
  }

  lemma {:induction false} RunCapacity(o: Options, w: World, moves: seq<Move>)
    requires WorldInv(o, w)
    ensures Run(o, w, moves).store.capacity == w.store.capacity
    decreases |moves|
  {
    hide AllInv, ServerStep, ClientSide;
    if moves != [] {
      var k := |moves| - 1;
      RunCapacity(o, w, moves[..k]);
      NextCapacity(o, Run(o, w, moves[..k]), moves[k]);
    }
  }

  lemma NextCapacity(o: Options, w: World, m: Move)
    requires WorldInv(o, w)
    ensures Next(o, w, m).World? && Next(o, w, m).store.capacity == w.store.capacity
  {
    NextKeeps(o, w, m);
    hide AllInv, ServerStep, ClientSide, Counts;
    if m.On? && m.i < |w.conns| && !OfClient(m.a) {
      var op := ServerStep(o, w.store, w.clients, w.conns[m.i].srv, m.a).op;
      if op.Some? {
        St.StepKeepsWf(w.store, op.value);
      }
    }
    if m.Env? {
      St.StepKeepsWf(w.store, m.op);
    }
  }

  /** Handshake agreement: the wire is hello, snapshot, then any mix of event, stats and pong, so the
      client's handshake never refuses this server, and it learns the server's hello and snapshot. */
  lemma HandshakeAgreement(o: Options, s: St.State, moves: seq<Move>, i: nat)
    requires St.Wf(s) && s.capacity > 0
    ensures var w := Reach(o, s, moves);
            i < |w.conns| ==>
            var c := w.conns[i];
            && (|c.wire| > 0 ==> c.wire[0] == Hello(o.version, o.db))
            && (|c.wire| > 1 ==> c.wire[1] == Snapshot(c.srv.items))
            && (forall k :: 2 <= k < |c.wire| ==> c.wire[k].EventMsg? || c.wire[k].StatsMsg? || c.wire[k].Pong?)
            && !c.peer.client.phase.Refused?
            && (c.peer.client.phase.Ready? ==>
                 c.peer.client.version == o.version && c.peer.client.db == o.db && c.peer.client.snapshot == c.srv.items)
  {
    hide Run, SubShape, Books, AllInv;
    var w := Reach(o, s, moves);
    if i < |w.conns| {
      AllInvAt(o, w.store, w.conns, i);
    }
  }

  /** Accounting: the daemon never panics, the client counter is the number of live handlers, and a
      connection's subscription is registered exactly while its handler is serving. */
  lemma Accounting(o: Options, s: St.State, moves: seq<Move>)
    requires St.Wf(s) && s.capacity > 0
    ensures var w := Reach(o, s, moves);
            && w.World?
            && w.clients == CountLive(w.conns)
            && OwnSubs(w.conns)
            && (forall i :: 0 <= i < |w.conns| && w.conns[i].srv.sub.Some? ==>
                 (w.conns[i].srv.sub.value in w.store.subs
                  <==> w.conns[i].srv.pc == Streaming || w.conns[i].srv.pc == Returning))
            && (forall i :: 0 <= i < |w.conns| && w.conns[i].srv.pc == Streaming ==> w.conns[i].srv.sub.Some?)
  {
    hide Run, WireShape, PeerShape, Books, AllInv;
    var w := Reach(o, s, moves);
    forall i | 0 <= i < |w.conns|
      ensures w.conns[i].srv.sub.Some? ==>
                (w.conns[i].srv.sub.value in w.store.subs
                 <==> w.conns[i].srv.pc == Streaming || w.conns[i].srv.pc == Returning)
      ensures w.conns[i].srv.pc == Streaming ==> w.conns[i].srv.sub.Some?
    {
      AllInvAt(o, w.store, w.conns, i);
    }
  }

  lemma {:induction false} NobodyLive(conns: seq<Conn>)
    ensures CountLive(conns) == 0 <==> forall i :: 0 <= i < |conns| ==> !Live(conns[i].srv)
    decreases |conns|
  {
    if conns != [] {
      NobodyLive(conns[..|conns| - 1]);
    }
  }

  /** When the counter is back to zero, no connection's channel is left registered. */
  lemma NoLeak(o: Options, s: St.State, moves: seq<Move>)
    requires St.Wf(s) && s.capacity > 0 && Reach(o, s, moves).clients == 0
    ensures var w := Reach(o, s, moves);
            forall i :: 0 <= i < |w.conns| && w.conns[i].srv.sub.Some? ==> w.conns[i].srv.sub.value !in w.store.subs
  {
    hide Run, AllInv;
    Accounting(o, s, moves);
    NobodyLive(Reach(o, s, moves).conns);
  }
}
