/** What the store guarantees over whole runs, for any interleaving of pushers and subscribers. */
module StoreProps {
  import opened Seqs
  import opened Events
  import opened StoreSpec

  /** The events pushed by a run, in order. */
  function Pushes(ops: seq<Op>): seq<Event> {
    if ops == [] then []
    else
      var k := |ops| - 1;
      Pushes(ops[..k]) + if ops[k].Push? then [ops[k].e] else []
  }

  function Subscriptions(ops: seq<Op>): nat {
    if ops == [] then 0
    else
      var k := |ops| - 1;
      Subscriptions(ops[..k]) + if ops[k].Subscribe? then 1 else 0
  }

  function Snapshot(s: State): seq<Event> {
    LastN(s.history, s.capacity)
  }

  lemma InitInv(capacity: nat)
    ensures Inv(Init(capacity))
  {
  }

  /** No run sends on or closes a closed channel; the only panic left is pushing into a store of
      capacity 0, which `--buffer 0` reaches. */
  lemma {:induction false} RunPanicsIff(s: State, ops: seq<Op>)
    requires Wf(s)
    ensures Run(s, ops).Panic? <==> s.capacity == 0 && Pushes(ops) != []
    decreases |ops|
  {
    if ops != [] {
      var k := |ops| - 1;
      RunPanicsIff(s, ops[..k]);
      if Run(s, ops[..k]).Ok? {
        StepKeepsWf(Run(s, ops[..k]).s, ops[k]);
      }
    }
  }

  lemma StepHistory(s: State, op: Op)
    requires Wf(s) && Step(s, op).Ok?
    ensures Step(s, op).s.history == s.history + if op.Push? then [op.e] else []
    ensures |Step(s, op).s.chans| == |s.chans| + if op.Subscribe? then 1 else 0
  {
  }

  /** The history, and so every snapshot and total, depends on the pushes alone, never on who
      subscribed or how fast they read. */
  lemma {:induction false} HistoryIsPushes(s: State, ops: seq<Op>)
    requires Wf(s) && Run(s, ops).Ok?
    ensures Run(s, ops).s.history == s.history + Pushes(ops)
    ensures |Run(s, ops).s.chans| == |s.chans| + Subscriptions(ops)
    decreases |ops|
  {
    if ops != [] {
      var k := |ops| - 1;
      HistoryIsPushes(s, ops[..k]);
      StepHistory(Run(s, ops[..k]).s, ops[k]);
    }
  }

  // ---- isolation ----

  /** A read or an unsubscribe on a channel other than id. */
  predicate TouchesOther(op: Op, id: nat) {
    (op.Receive? || op.Unsubscribe?) && op.id != id
  }

  /** The run without any read or unsubscribe of the other subscribers. */
  function Erase(ops: seq<Op>, id: nat): seq<Op> {
    if ops == [] then []
    else
      var k := |ops| - 1;
      Erase(ops[..k], id) + if TouchesOther(ops[k], id) then [] else [ops[k]]
  }

  /** The two states look the same to subscriber id. */
  ghost predicate SameView(s: State, t: State, id: nat) {
    && s.capacity == t.capacity
    && s.history == t.history
    && |s.chans| == |t.chans|
    && (id < |s.chans| ==> s.chans[id] == t.chans[id])
  }

  lemma StepSameView(s: State, t: State, op: Op, id: nat)
    requires Wf(s) && Wf(t) && SameView(s, t, id)
    requires Step(s, op).Ok?
    requires !TouchesOther(op, id)
    ensures Step(t, op).Ok? && SameView(Step(s, op).s, Step(t, op).s, id)
  {
    match op
    case Push(e) =>
      StepKeepsWf(t, op);
      BroadcastPointwise(s.chans, s.subs, |s.history|, e);
      BroadcastPointwise(t.chans, t.subs, |t.history|, e);
    case Subscribe(f) =>
    case Unsubscribe(i) =>
      StepKeepsWf(t, op);
      UnsubscribeEffect(s, i);
      UnsubscribeEffect(t, i);
    case Receive(i) =>
  }

  /** Unsubscribing closes the channel and removes exactly it, keeping the others in order; a
      second or unknown unsubscribe does nothing at all. */
  lemma UnsubscribeEffect(s: State, id: nat)
    requires Wf(s)
    ensures Step(s, Unsubscribe(id)).Ok?
    ensures id !in s.subs ==> Step(s, Unsubscribe(id)).s == s
    ensures id in s.subs ==>
              var t := Step(s, Unsubscribe(id)).s;
              && t == s.(chans := t.chans, subs := t.subs)
              && t.chans == s.chans[id := s.chans[id].(closedAt := Some(|s.history|))]
              && Increasing(t.subs)
              && (forall x :: x in t.subs <==> x in s.subs && x != id)
              && Step(t, Unsubscribe(id)).s == t
  {
    StepKeepsWf(s, Unsubscribe(id));
    var i := IndexOf(s.subs, id);
    if i < |s.subs| {
      RemoveAtElements(s.subs, i);
      var t := Step(s, Unsubscribe(id)).s;
      var j := IndexOf(t.subs, id);
      assert t.subs[..|t.subs|] == t.subs;
    } else {
      assert s.subs[..i] == s.subs;
    }
  }

  lemma StepInvisible(s: State, op: Op, id: nat)
    requires Wf(s) && TouchesOther(op, id)
    ensures Step(s, op).Ok? && SameView(s, Step(s, op).s, id)
  {
    if op.Unsubscribe? {
      UnsubscribeEffect(s, op.id);
    }
  }

  /** Slow-consumer isolation: deleting every read and unsubscribe of the other subscribers leaves
      one subscriber's received, queued and dropped items, and the history, exactly as they were. */
  lemma {:induction false} Isolation(s: State, ops: seq<Op>, id: nat)
    requires Wf(s) && Run(s, ops).Ok?
    ensures Run(s, Erase(ops, id)).Ok?
    ensures SameView(Run(s, ops).s, Run(s, Erase(ops, id)).s, id)
    decreases |ops|
  {
    if ops != [] {
      var k := |ops| - 1;
      var rest := Erase(ops[..k], id);
      Isolation(s, ops[..k], id);
      if TouchesOther(ops[k], id) {
        assert Erase(ops, id) == rest;
        StepInvisible(Run(s, ops[..k]).s, ops[k], id);
      } else {
        var all := rest + [ops[k]];
        assert all[..|all| - 1] == rest && all[|all| - 1] == ops[k];
        StepSameView(Run(s, ops[..k]).s, Run(s, rest).s, ops[k], id);
      }
    }
  }

  /** Two runs that differ only in how the other subscribers behave are the same to subscriber id. */
  lemma IsolationBetween(s: State, ops1: seq<Op>, ops2: seq<Op>, id: nat)
    requires Wf(s) && Run(s, ops1).Ok? && Run(s, ops2).Ok?
    requires Erase(ops1, id) == Erase(ops2, id)
    ensures SameView(Run(s, ops1).s, Run(s, ops2).s, id)
  {
    Isolation(s, ops1, id);
    Isolation(s, ops2, id);
  }

  // ---- conservation ----

  /** The positions a subscriber should have been offered by now. */
  function Due(s: State, id: nat): seq<nat>
    requires id < |s.chans| && Until(s.chans[id], s.history) <= |s.history|
  {
    var c := s.chans[id];
    Matching(s.history, c.filter, c.since, Until(c, s.history))
  }

  lemma {:induction false} MatchingMembers(h: seq<Event>, f: Filter, lo: nat, hi: nat)
    requires hi <= |h|
    ensures Increasing(Matching(h, f, lo, hi)) && Below(Matching(h, f, lo, hi), hi)
    ensures forall p :: p in Matching(h, f, lo, hi) <==> lo <= p < hi && f.Match(h[p])
    decreases hi
  {
    if lo < hi {
      MatchingMembers(h, f, lo, hi - 1);
      var init := Matching(h, f, lo, hi - 1);
      var m := Matching(h, f, lo, hi);
      if f.Match(h[hi - 1]) {
        assert m == init + [hi - 1];
        assert forall p :: p in m <==> p in init || p == hi - 1;
      } else {
        assert m == init;
      }
    }
  }

  /** Over any run, the matching pushes of a subscription's lifetime split exactly into received,
      queued and dropped ones, keeping their order; nothing is lost when nothing overflowed. */
  lemma Conservation(s: State, ops: seq<Op>, id: nat)
    requires Inv(s) && Run(s, ops).Ok? && id < |Run(s, ops).s.chans|
    ensures var t := Run(s, ops).s; var c := t.chans[id];
            && Until(c, t.history) <= |t.history|
            && (forall p :: p in Due(t, id) <==>
                 c.since <= p < Until(c, t.history) && c.filter.Match(t.history[p]))
            && Increasing(Due(t, id))
            && Shuffle<nat>(c.received + c.queue, c.dropped, Due(t, id))
            && multiset(c.received) + multiset(c.queue) + multiset(c.dropped) == multiset(Due(t, id))
            && (c.dropped == [] ==> c.received + c.queue == Due(t, id))
  {
    RunKeepsInv(s, ops);
    var t := Run(s, ops).s;
    var c := t.chans[id];
    assert ChanOk(c, t.history);
    MatchingMembers(t.history, c.filter, c.since, Until(c, t.history));
    ShuffleMultiset<nat>(c.received + c.queue, c.dropped, Due(t, id));
    if c.dropped == [] {
      ShuffleAlone<nat>(c.received + c.queue, Due(t, id));
    }
  }

  ghost predicate NeverReads(ops: seq<Op>, id: nat) {
    forall i :: 0 <= i < |ops| ==> ops[i] != Receive(id)
  }

  lemma StepUnread(s: State, op: Op, id: nat)
    requires Wf(s) && Step(s, op).Ok? && id < |Step(s, op).s.chans| && op != Receive(id)
    requires id < |s.chans| ==> s.chans[id].received == []
    ensures Step(s, op).s.chans[id].received == []
  {
    if op.Push? {
      BroadcastPointwise(s.chans, s.subs, |s.history|, op.e);
      hide Broadcast;
    }
  }

  lemma {:induction false} UnreadChannel(s: State, ops: seq<Op>, id: nat)
    requires Wf(s) && Run(s, ops).Ok? && id < |Run(s, ops).s.chans|
    requires id < |s.chans| ==> s.chans[id].received == []
    requires NeverReads(ops, id)
    ensures Run(s, ops).s.chans[id].received == []
    decreases |ops|
  {
    hide Step, Wf;
    if ops != [] {
      var k := |ops| - 1;
      var t := Run(s, ops[..k]).s;
      assert ops[k] != Receive(id);
      if id < |t.chans| {
        UnreadChannel(s, ops[..k], id);
      }
      StepUnread(t, ops[k], id);
    }
  }

  /** A subscriber that never reads keeps exactly the first 100 matches and drops all the rest. */
  lemma StalledSubscriber(s: State, ops: seq<Op>, id: nat)
    requires Inv(s) && Run(s, ops).Ok? && id < |Run(s, ops).s.chans|
    requires id < |s.chans| ==> s.chans[id].received == []
    requires NeverReads(ops, id)
    ensures var t := Run(s, ops).s; var c := t.chans[id];
            && Until(c, t.history) <= |t.history|
            && c.queue == Due(t, id)[..Min(|Due(t, id)|, 100)]
            && c.dropped == Due(t, id)[Min(|Due(t, id)|, 100)..]
  {
    UnreadChannel(s, ops, id);
    RunKeepsInv(s, ops);
    var t := Run(s, ops).s;
    var c := t.chans[id];
    assert ChanOk(c, t.history);
    assert c.queue + c.dropped == Due(t, id);
  }

  // ---- when a subscriber loses an event ----

  /** A push offers the event to the registered subscriptions only: one whose filter passes it enqueues
      it below 100 waiting items and drops it at 100. */
  lemma PushEffect(s: State, e: Event, id: nat)
    requires Wf(s) && s.capacity > 0 && id < |s.chans|
    ensures Step(s, Push(e)).Ok?
    ensures var t := Step(s, Push(e)).s; var c := s.chans[id];
            && |t.chans| == |s.chans| && t.subs == s.subs && t.history == s.history + [e]
            && t.chans[id] == (if id !in s.subs || !Passes(c.filter, e) then c
                               else if |c.queue| < 100 then c.(queue := c.queue + [|s.history|])
                               else c.(dropped := c.dropped + [|s.history|]))
  {
    BroadcastPointwise(s.chans, s.subs, |s.history|, e);
    hide Broadcast;
  }

  /** Which events a filter lets through. */
  predicate Passes(f: Filter, e: Event) {
    f.AllowAll? || exists i :: 0 <= i < |f.tables| && f.tables[i] == e.table
  }

  /** A receive takes the oldest waiting item of that subscription, registered or not, and nothing else. */
  lemma ReceiveEffect(s: State, id: nat)
    requires Wf(s) && id < |s.chans|
    ensures Step(s, Receive(id)).Ok?
    ensures var t := Step(s, Receive(id)).s; var c := s.chans[id];
            t == s.(chans := s.chans[id := if c.queue == [] then c
                                           else c.(received := c.received + [c.queue[0]], queue := c.queue[1..])])
  {
  }

  /** The store right after a subscription: one more channel, empty, with this filter, registered last. */
  predicate Subscribed(s: State, f: Filter, t: State) {
    t == State(s.capacity, s.history, s.chans + [Chan(f, |s.history|, None, [], [], [])], s.subs + [|s.chans|])
  }

  lemma SubscribeEffect(s: State, f: Filter)
    requires Wf(s)
    ensures Step(s, Subscribe(f)).Ok? && Subscribed(s, f, Step(s, Subscribe(f)).s) && Wf(Step(s, Subscribe(f)).s)
  {
    StepKeepsWf(s, Subscribe(f));
  }

  /** How many items wait for the subscription after the operations, read off them alone. */
  function Backlog(ops: seq<Op>, id: nat, f: Filter): nat {
    if ops == [] then 0
    else
      var k := |ops| - 1;
      var b := Backlog(ops[..k], id, f);
      if ops[k].Push? && Passes(f, ops[k].e) then Min(b + 1, 100)
      else if ops[k] == Receive(id) && b > 0 then b - 1
      else b
  }

  /** How many receives found something waiting. */
  function Served(ops: seq<Op>, id: nat, f: Filter): nat {
    if ops == [] then 0
    else
      var k := |ops| - 1;
      Served(ops[..k], id, f) + if ops[k] == Receive(id) && Backlog(ops[..k], id, f) > 0 then 1 else 0
  }

  /** The subscription's channel is as the operations since it was made say. */
  ghost predicate Follows(s: State, t: State, ops: seq<Op>, id: nat, f: Filter) {
    && id in t.subs && id < |t.chans|
    && var c := t.chans[id];
       && c.filter == f && c.since == |s.history| && c.closedAt.None?
       && |c.queue| == Backlog(ops, id, f) && |c.received| == Served(ops, id, f)
  }

  lemma StepFollows(s: State, t: State, ops: seq<Op>, op: Op, id: nat, f: Filter)
    requires Wf(t) && t.capacity > 0 && Follows(s, t, ops, id, f) && op != Unsubscribe(id)
    ensures Step(t, op).Ok? && Follows(s, Step(t, op).s, ops + [op], id, f)
  {
    assert (ops + [op])[..|ops|] == ops;
    BacklogBound(ops, id, f);
    match op {
      case Push(e) => PushEffect(t, e, id);
      case Subscribe(g) => SubscribeEffect(t, g);
      case Unsubscribe(i) => UnsubscribeEffect(t, i);
      case Receive(i) => if i < |t.chans| { ReceiveEffect(t, i); }
    }
    hide Step, Wf, Passes;
  }

  lemma {:induction false} PushesLonger(ops: seq<Op>, k: nat)
    requires k < |ops| && ops[k].Push?
    ensures |Pushes(ops[..k])| < |Pushes(ops)|
    decreases |ops|
  {
    var n := |ops| - 1;
    if k < n {
      PushesLonger(ops[..n], k);
      assert ops[..n][..k] == ops[..k];
    }
  }

  /** The position at which the k-th operation pushes. */
  function PositionOf(s: State, ops: seq<Op>, k: nat): nat
    requires k < |ops|
  {
    |s.history| + |Pushes(ops[..k])|
  }

  /** The drops of one more operation: the pushed position, when 100 items wait. */
  lemma StepDrops(s: State, t: State, ops: seq<Op>, op: Op, id: nat, f: Filter)
    requires Wf(t) && t.capacity > 0 && Follows(s, t, ops, id, f) && op != Unsubscribe(id)
    ensures Step(t, op).Ok? && id < |Step(t, op).s.chans|
    ensures Step(t, op).s.chans[id].dropped
            == t.chans[id].dropped
               + if op.Push? && Passes(f, op.e) && Backlog(ops, id, f) == 100 then [|t.history|] else []
  {
    var d := t.chans[id].dropped;
    assert d + [] == d;
    BacklogBound(ops, id, f);
    match op {
      case Push(e) => PushEffect(t, e, id);
      case Subscribe(g) => SubscribeEffect(t, g);
      case Unsubscribe(i) => UnsubscribeEffect(t, i);
      case Receive(i) => if i < |t.chans| { ReceiveEffect(t, i); }
    }
    hide Step, Wf, Passes, Backlog;
  }

  lemma {:induction false} BacklogBound(ops: seq<Op>, id: nat, f: Filter)
    ensures Backlog(ops, id, f) <= 100
    decreases |ops|
  {
    if ops != [] {
      BacklogBound(ops[..|ops| - 1], id, f);
    }
  }

  /** Over any run after a subscription, its queue length and its receives are those of the operations,
      and a matching push is dropped if and only if 100 items waited at that moment. */
  lemma {:induction false} DroppedIff(s: State, ops: seq<Op>, id: nat, f: Filter)
    requires Wf(s) && s.capacity > 0 && Run(s, ops).Ok?
    requires id in s.subs && id < |s.chans| && s.chans[id] == Chan(f, |s.history|, None, [], [], [])
    requires forall i :: 0 <= i < |ops| ==> ops[i] != Unsubscribe(id)
    ensures var t := Run(s, ops).s;
            && Follows(s, t, ops, id, f)
            && (forall k :: 0 <= k < |ops| && ops[k].Push? ==>
                 (PositionOf(s, ops, k) in t.chans[id].dropped
                  <==> Passes(f, ops[k].e) && Backlog(ops[..k], id, f) == 100))
            && (forall p :: p in t.chans[id].dropped ==> |s.history| <= p < |t.history|)
    decreases |ops|
  {
    hide Step, Wf, Passes, Backlog, Served;
    if ops == [] {
      NothingYet(id, f);
    } else {
      var n := |ops| - 1;
      var init, op := ops[..n], ops[n];
      var t0 := Run(s, init).s;
      DroppedIff(s, init, id, f);
      assert init + [op] == ops;
      HistoryIsPushes(s, init);
      HistoryIsPushes(s, ops);
      StepFollows(s, t0, init, op, id, f);
      StepDrops(s, t0, init, op, id, f);
      var d0, d := t0.chans[id].dropped, Run(s, ops).s.chans[id].dropped;
      forall k | 0 <= k < |ops| && ops[k].Push?
        ensures PositionOf(s, ops, k) in d <==> Passes(f, ops[k].e) && Backlog(ops[..k], id, f) == 100
      {
        if k < n {
          assert init[..k] == ops[..k] && init[k] == ops[k];
          PushesLonger(init, k);
          assert PositionOf(s, init, k) == PositionOf(s, ops, k) < |t0.history|;
        } else {
          assert PositionOf(s, ops, k) == |t0.history|;
        }
      }
    }
  }

  lemma NothingYet(id: nat, f: Filter)
    ensures Backlog([], id, f) == 0 && Served([], id, f) == 0
  {
  }

  // ---- life cycle ----

  /** The k-th operation made the subscription numbered id, and none after it unsubscribes it. */
  ghost predicate LiveSince(ops: seq<Op>, id: nat, k: nat) {
    && k < |ops| && ops[k].Subscribe? && Subscriptions(ops[..k]) == id
    && forall j :: k < j < |ops| ==> ops[j] != Unsubscribe(id)
  }

  /** Read off the operations: the subscription numbered id was made and not unsubscribed since. */
  ghost predicate LiveAfter(ops: seq<Op>, id: nat) {
    exists k: nat :: LiveSince(ops, id, k)
  }

  lemma LiveSinceStep(ops: seq<Op>, op: Op, id: nat, k: nat)
    requires k <= |ops|
    ensures k < |ops| ==> (LiveSince(ops + [op], id, k) <==> LiveSince(ops, id, k) && op != Unsubscribe(id))
    ensures k == |ops| ==> (LiveSince(ops + [op], id, k) <==> op.Subscribe? && Subscriptions(ops) == id)
  {
    hide Subscriptions;
    var all := ops + [op];
    assert all[..k] == ops[..k] && all[|ops|] == op && all[..|ops|] == ops;
    if k < |ops| && LiveSince(all, id, k) {
      assert all[|ops|] != Unsubscribe(id);
      forall j | k < j < |ops| ensures ops[j] != Unsubscribe(id) {
        assert all[j] == ops[j];
      }
    }
  }

  lemma LiveAfterStep(ops: seq<Op>, op: Op, id: nat)
    ensures LiveAfter(ops + [op], id) <==>
              (LiveAfter(ops, id) && op != Unsubscribe(id)) || (op.Subscribe? && Subscriptions(ops) == id)
  {
    var all := ops + [op];
    LiveSinceStep(ops, op, id, |ops|);
    if LiveAfter(ops, id) {
      var k: nat :| LiveSince(ops, id, k);
      LiveSinceStep(ops, op, id, k);
    }
    if LiveAfter(all, id) {
      var k: nat :| LiveSince(all, id, k);
      LiveSinceStep(ops, op, id, k);
    }
    assert LiveSince(all, id, |ops|) ==> LiveAfter(all, id);
    hide Subscriptions;
  }

  /** Over any run from an empty store, the registered channels are exactly the ones subscribed and
      not yet unsubscribed, in subscription order, distinct and open. */
  lemma {:induction false} RegisteredAreLive(capacity: nat, ops: seq<Op>)
    requires Run(Init(capacity), ops).Ok?
    ensures var t := Run(Init(capacity), ops).s;
            && Increasing(t.subs)
            && |t.chans| == Subscriptions(ops)
            && (forall id :: id in t.subs <==> LiveAfter(ops, id))
            && (forall id :: id in t.subs ==> id < |t.chans| && t.chans[id].closedAt.None?)
    decreases |ops|
  {
    InitInv(capacity);
    HistoryIsPushes(Init(capacity), ops);
    var t := Run(Init(capacity), ops).s;
    if ops != [] {
      var k := |ops| - 1;
      var init, op := ops[..k], ops[k];
      assert ops == init + [op];
      RegisteredAreLive(capacity, init);
      var t0 := Run(Init(capacity), init).s;
      forall id: nat ensures id in t.subs <==> LiveAfter(ops, id) {
        LiveAfterStep(init, op, id);
        if op.Unsubscribe? {
          UnsubscribeEffect(t0, op.id);
        }
      }
    }
  }

  // ---- re-buffering ----

  /** Feeding a c1-slot snapshot and then a stream into a c2-slot store shows the same suffix as
      one buffer of min(c2, c1 + |stream|) slots over the whole history. */
  lemma Rebuffer<T>(h: seq<T>, stream: seq<T>, c1: nat, c2: nat)
    ensures LastN(LastN(h, c1) + stream, c2) == LastN(h + stream, Min(c2, c1 + |stream|))
  {
    var x := LastN(h, c1) + stream;
    assert x == LastN(h + stream, c1 + |stream|) by {
      if c1 < |h| {
        assert h[|h| - c1..] + stream == (h + stream)[|h| - c1..];
      }
    }
    LastNTwice(h + stream, c1 + |stream|, c2);
  }

  lemma LastNTwice<T>(s: seq<T>, m: nat, n: nat)
    ensures LastN(LastN(s, m), n) == LastN(s, Min(m, n))
  {
    if m < |s| && n < m {
      assert s[|s| - m..][m - n..] == s[|s| - n..];
    }
  }
}
