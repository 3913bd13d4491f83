/** The client's own books: every event it decodes is delivered, queued or counted as dropped. */
module AttachCounts {
  import opened Seqs
  import opened ClientSpec
  import opened Attach
  import opened AttachInv
  import opened AttachProps
  import St = StoreSpec

  /** The streamed items the client has decoded so far. */
  function Decoded(wire: Wire, q: Peer): seq<Item>
    requires 2 <= q.read <= |wire|
  {
    Items(wire[2..q.read])
  }

  /** Decoded items are exactly those enqueued (delivered since, or still queued) and those dropped. */
  ghost predicate Balanced(wire: Wire, q: Peer) {
    2 <= q.read <= |wire| ==>
      && q.replay <= |q.pushed|
      && Shuffle<Item>(q.pushed[q.replay..] + q.client.events, q.client.dropped, Decoded(wire, q))
  }

  lemma EventBalanced(wire: Wire, q: Peer, kept: seq<Item>, x: Item)
    requires Shuffle<Item>(kept, q.client.dropped, Items(wire))
    ensures Shuffle<Item>(kept + [x], q.client.dropped, Items(wire) + [x])
    ensures Shuffle<Item>(kept, q.client.dropped + [x], Items(wire) + [x])
  {
    hide Shuffle;
    ShuffleLeft<Item>(kept, q.client.dropped, Items(wire), x);
    ShuffleRight<Item>(kept, q.client.dropped, Items(wire), x);
  }

  lemma ReadBalanced(o: Options, items: seq<Item>, wire: Wire, q: Peer)
    requires WireShape(o, items, wire) && PeerShape(o, items, |wire|, q) && q.read < |wire| && !q.client.phase.Ended?
    requires Balanced(wire, q)
    ensures Balanced(wire, AfterRead(q, wire[q.read]))
  {
    hide Shuffle, Items;
    var env := wire[q.read];
    var q' := AfterRead(q, env);
    if q.read >= 2 {
      assert wire[2..q.read + 1] == wire[2..q.read] + [env];
      ItemsAppend(wire[2..q.read], env);
      assert StreamMsg(env);
      hide WireShape;
      var kept := q.pushed[q.replay..] + q.client.events;
      if env.EventMsg? {
        EventBalanced(wire[2..q.read], q, kept, env.item);
        if |q.client.events| < EVENTS_CAP {
          assert q'.pushed[q'.replay..] + q'.client.events == kept + [env.item];
        }
      } else {
        assert Items(wire[2..q.read]) + [] == Items(wire[2..q.read]);
      }
    } else if q.read == 1 {
      ShuffleNone<Item>();
      assert q'.pushed[q'.replay..] + q'.client.events == [];
      NoItems();
      assert wire[2..2] == [];
    }
  }

  lemma NoItems()
    ensures Items<Item>([]) == []
  {
  }

  lemma OwnBalanced(o: Options, items: seq<Item>, wire: Wire, q: Peer, a: Action)
    requires PeerShape(o, items, |wire|, q) && OfClient(a) && !a.ClientRead? && Balanced(wire, q)
    ensures Balanced(wire, ClientSide(wire, q, a))
  {
    hide Shuffle;
    var q' := ClientSide(wire, q, a);
    if a.PushEvent? && q' != q {
      assert q.client.events == [q.client.events[0]] + q.client.events[1..];
      assert q'.pushed[q'.replay..] + q'.client.events == q.pushed[q.replay..] + q.client.events;
    } else {
      assert q'.pushed[q'.replay..] == q.pushed[q.replay..];
    }
  }

  /** Connection i after its own action. */
  function Moved(o: Options, s: St.State, clients: int, c: Conn, a: Action): Conn {
    if OfClient(a) then c.(peer := ClientSide(c.wire, c.peer, a))
    else
      var eff := ServerStep(o, s, clients, c.srv, a);
      c.(srv := eff.srv, wire := Append(c.wire, eff.out))
  }

  lemma MoveConns(o: Options, w: World, i: nat, a: Action)
    requires w.World? && i < |w.conns| && St.Registered(w.store.chans, w.store.subs)
    requires ConnMove(o, w, i, a).World?
    ensures ConnMove(o, w, i, a).conns == w.conns[i := Moved(o, w.store, w.clients, w.conns[i], a)]
  {
    hide ServerStep, ClientSide, Counts;
  }

  lemma ConnBalanced(o: Options, s: St.State, clients: int, c: Conn, a: Action)
    requires Shape(o, s, c) && Balanced(c.wire, c.peer)
    ensures var d := Moved(o, s, clients, c, a); Balanced(d.wire, d.peer)
  {
    hide SubShape, ServerStep, Balanced;
    if !OfClient(a) {
      WireBalanced(c.wire, c.peer, ServerStep(o, s, clients, c.srv, a).out);
    } else if !a.ClientRead? {
      OwnBalanced(o, c.srv.items, c.wire, c.peer, a);
    } else if c.peer.read < |c.wire| && !c.peer.client.phase.Ended? {
      ReadBalanced(o, c.srv.items, c.wire, c.peer);
    }
  }

  lemma WireBalanced(wire: Wire, q: Peer, out: Option<Envelope<Item>>)
    requires Balanced(wire, q) && q.read <= |wire|
    ensures Balanced(Append(wire, out), q)
  {
    if 2 <= q.read {
      assert Append(wire, out)[2..q.read] == wire[2..q.read];
    }
  }

  ghost predicate AllBalanced(conns: seq<Conn>) {
    forall i :: 0 <= i < |conns| ==> Balanced(conns[i].wire, conns[i].peer)
  }

  lemma MoveBalanced(o: Options, w: World, i: nat, a: Action)
    requires WorldInv(o, w) && AllBalanced(w.conns) && i < |w.conns|
    requires ConnMove(o, w, i, a).World?
    ensures AllBalanced(ConnMove(o, w, i, a).conns)
  {
    AllInvAt(o, w.store, w.conns, i);
    hide AllInv, ConnMove, Moved, Shape, Books, Balanced;
    MoveConns(o, w, i, a);
    ConnBalanced(o, w.store, w.clients, w.conns[i], a);
  }

  lemma NextBalanced(o: Options, w: World, m: Move)
    requires WorldInv(o, w) && AllBalanced(w.conns)
    ensures Next(o, w, m).World? && AllBalanced(Next(o, w, m).conns)
  {
    NextKeeps(o, w, m);
    hide AllInv, Balanced, ConnMove;
    if m.On? && m.i < |w.conns| {
      MoveBalanced(o, w, m.i, m.a);
    } else if m.Accept? {
      FreshBalanced();
    }
  }

  lemma FreshBalanced()
    ensures Balanced(FRESH.wire, FRESH.peer)
  {
  }

  lemma {:induction false} RunBalanced(o: Options, w: World, moves: seq<Move>)
    requires WorldInv(o, w) && AllBalanced(w.conns)
    ensures AllBalanced(Run(o, w, moves).conns)
    decreases |moves|
  {
    hide AllInv, Balanced, Next;
    if moves != [] {
      var k := |moves| - 1;
      RunBalanced(o, w, moves[..k]);
      NextBalanced(o, Run(o, w, moves[..k]), moves[k]);
    }
  }

  /** Events parsed = events enqueued + events dropped, item by item and in order, in every
      interleaving of the wire, the read loop and the consumer. */
  lemma ParsedIsEnqueuedPlusDropped(o: Options, s: St.State, moves: seq<Move>, i: nat)
    requires St.Wf(s) && s.capacity > 0
    ensures var w := Reach(o, s, moves);
            i < |w.conns| && w.conns[i].peer.read >= 2 ==>
            var c := w.conns[i];
            && c.peer.replay <= |c.peer.pushed| && c.peer.read <= |c.wire|
            && var enqueued := c.peer.pushed[c.peer.replay..] + c.peer.client.events;
               && Shuffle<Item>(enqueued, c.peer.client.dropped, Decoded(c.wire, c.peer))
               && |Decoded(c.wire, c.peer)| == |enqueued| + |c.peer.client.dropped|
  {
    hide AllInv, Run;
    IdleInv(o, s);
    RunBalanced(o, Idle(s), moves);
    var w := Reach(o, s, moves);
    if i < |w.conns| && w.conns[i].peer.read >= 2 {
      AllInvAt(o, w.store, w.conns, i);
      var c := w.conns[i];
      ShuffleLength<Item>(c.peer.pushed[c.peer.replay..] + c.peer.client.events, c.peer.client.dropped, Decoded(c.wire, c.peer));
    }
  }
}
