/** The ring buffer and its fan-out, as the object internal/store/store.go keeps behind a mutex.
    Each method is one critical section, proved against the same-named step of StoreSpec. */
module Stores {
  import opened Seqs
  import opened Events
  import opened Channels
  import opened StoreSpec
  import StoreProps

  datatype Subscriber = Subscriber(ch: Channel<Event>, filter: Filter)

  datatype StoreStats = StoreStats(total: nat, buffered: nat)

  /** The slots r, the write cursor and the fill count hold the last |r| events of h. */
  ghost predicate RingHolds(r: seq<Event>, cursor: nat, count: nat, h: seq<Event>) {
    && count == Min(|h|, |r|)
    && (|r| > 0 ==> cursor == |h| % |r| && cursor < |r|)
    && (|r| == 0 ==> cursor == 0)
    && (count < |r| ==> cursor == count && r[..count] == h)
    && (count == |r| ==> r[cursor..] + r[..cursor] == LastN(h, |r|))
  }

  ghost predicate Mirrors(ch: Channel<Event>, c: Chan, h: seq<Event>)
    reads ch
  {
    && ch.capacity == SUB_CHAN_CAP
    && (ch.closed <==> c.closedAt.Some?)
    && |ch.queue| == |c.queue|
    && forall k :: 0 <= k < |c.queue| ==> c.queue[k] < |h| && ch.queue[k] == h[c.queue[k]]
  }

  /** The subscriber list names, in order, the registered subscriptions. */
  ghost predicate Links(subs: seq<Subscriber>, all: seq<Channel<Event>>, ids: seq<nat>, chans: seq<Chan>) {
    && |subs| == |ids|
    && |all| == |chans|
    && forall i :: 0 <= i < |ids| ==> ids[i] < |all| && subs[i] == Subscriber(all[ids[i]], chans[ids[i]].filter)
  }

  lemma LinksAfterRemove(subs: seq<Subscriber>, all: seq<Channel<Event>>, ids: seq<nat>, chans: seq<Chan>, i: nat, c: Chan)
    requires Links(subs, all, ids, chans) && i < |subs|
    requires c.filter == chans[ids[i]].filter
    ensures Links(subs[..i] + subs[i + 1..], all, RemoveAt(ids, i), chans[ids[i] := c])
  {
  }

  lemma LinksAfterFanOut(subs: seq<Subscriber>, all: seq<Channel<Event>>, ids: seq<nat>, chans: seq<Chan>, cs: seq<Chan>)
    requires Links(subs, all, ids, chans)
    requires |cs| == |chans| && forall j :: 0 <= j < |cs| ==> cs[j].filter == chans[j].filter
    ensures Links(subs, all, ids, cs)
  {
  }

  lemma LinkAt(subs: seq<Subscriber>, all: seq<Channel<Event>>, ids: seq<nat>, chans: seq<Chan>, i: nat)
    requires Links(subs, all, ids, chans) && i < |subs|
    ensures i < |ids| && ids[i] < |all| == |chans|
    ensures subs[i] == Subscriber(all[ids[i]], chans[ids[i]].filter)
  {
  }

  lemma SubsDistinct(subs: seq<Subscriber>, all: seq<Channel<Event>>, ids: seq<nat>, chans: seq<Chan>)
    requires Links(subs, all, ids, chans) && Increasing(ids)
    requires forall i, j :: 0 <= i < j < |all| ==> all[i] != all[j]
    ensures forall i, j :: 0 <= i < j < |subs| ==> subs[i].ch != subs[j].ch
  {
  }

  lemma NotLinked(subs: seq<Subscriber>, all: seq<Channel<Event>>, ids: seq<nat>, chans: seq<Chan>, id: nat)
    requires Links(subs, all, ids, chans) && id < |all|
    requires forall i :: 0 <= i < |subs| ==> subs[i].ch != all[id]
    ensures id !in ids
  {
  }

  /** q holds, in order, the events at the positions waiting in c. */
  predicate Queues(q: seq<Event>, c: Chan, h: seq<Event>) {
    |q| == |c.queue| && forall k :: 0 <= k < |q| ==> c.queue[k] < |h| && q[k] == h[c.queue[k]]
  }

  /** What a push does to a channel's own queue follows from what it does to its subscription. */
  lemma QueueGrows(q: seq<Event>, q': seq<Event>, c: Chan, d: Chan, h: seq<Event>, e: Event)
    requires Queues(q, c, h) && Queues(q', d, h + [e])
    requires d.queue == c.queue || d.queue == c.queue + [|h|]
    ensures q' == q + if |d.queue| > |c.queue| then [e] else []
  {
  }

  lemma MirrorsQueues(ch: Channel<Event>, c: Chan, h: seq<Event>)
    requires Mirrors(ch, c, h)
    ensures Queues(ch.queue, c, h)
  {
  }

  /** q is what waits for the i-th registered subscriber. */
  predicate Waits(sub: Subscriber, q: seq<Event>, s: State, i: nat) {
    && i < |s.subs| && s.subs[i] < |s.chans|
    && sub.filter == s.chans[s.subs[i]].filter && Queues(q, s.chans[s.subs[i]], s.history)
  }

  lemma PushedQueue(sub: Subscriber, s: State, t: State, e: Event, i: nat, q: seq<Event>, q': seq<Event>)
    requires Wf(s) && s.capacity > 0 && Step(s, StoreSpec.Push(e)) == Ok(t)
    requires Waits(sub, q, s, i) && Waits(sub, q', t, i)
    ensures q' == q + if StoreProps.Passes(sub.filter, e) && |q| < 100 then [e] else []
  {
    hide Step, StoreProps.Passes;
    var id := s.subs[i];
    StoreProps.PushEffect(s, e, id);
    QueueGrows(q, q', s.chans[id], t.chans[id], s.history, e);
  }

  /** A channel keeps mirroring its subscription when the history grows. */
  lemma MirrorsLonger(ch: Channel<Event>, c: Chan, h: seq<Event>, e: Event)
    requires Mirrors(ch, c, h)
    ensures Mirrors(ch, c, h + [e])
  {
  }

  /** One turn of the broadcast loop: a matching event is enqueued, or dropped when the queue is full. */
  method Deliver(sub: Subscriber, e: Event, ghost c: Chan, ghost h: seq<Event>)
    requires Mirrors(sub.ch, c, h + [e]) && sub.filter == c.filter && c.closedAt.None?
    modifies sub.ch`queue
    ensures Mirrors(sub.ch, Offer(c, |h|, e), h + [e])
  {
    var ok := Matches(sub.filter, e);
    if ok {
      var _ := sub.ch.TrySend(e);
    }
  }

  class Store {
    const capacity: nat
    const ring: array<Event>
    var cursor: nat
    var count: nat
    var total: nat
    var subs: seq<Subscriber>

    /** The abstract store, and every channel ever handed out, by subscription number. */
    ghost var abs: State
    ghost var all: seq<Channel<Event>>

    ghost predicate Valid()
      reads this, ring, all
    {
      && ring.Length == capacity == abs.capacity
      && Wf(abs)
      && RingHolds(ring[..], cursor, count, abs.history)
      && total == |abs.history| % UINT64
      && ChannelsValid()
      && Links(subs, all, abs.subs, abs.chans)
    }

    ghost predicate ChannelsValid()
      reads this, all
    {
      && |all| == |abs.chans|
      && (forall i, j :: 0 <= i < j < |all| ==> all[i] != all[j])
      && forall i :: 0 <= i < |all| ==> Mirrors(all[i], abs.chans[i], abs.history)
    }

    constructor (capacity: nat)
      ensures Valid() && fresh(ring) && abs == Init(capacity) && all == []
    {
      this.capacity := capacity;
      ring := new Event[capacity](_ => ZERO_EVENT);
      cursor, count, total, subs := 0, 0, 0, [];
      abs, all := Init(capacity), [];
      new;
      StoreProps.InitInv(capacity);
      if capacity > 0 { SmallMod(0, capacity); }
    }

    /** Push appends to the ring and broadcasts without ever blocking on a slow subscriber: one whose
        filter passes the event gets it while fewer than 100 wait, and loses it otherwise. */
    method Push(e: Event)
      requires Valid()
      requires capacity > 0
      modifies this, ring, all
      ensures Valid() && all == old(all) && subs == old(subs)
      ensures Step(old(abs), StoreSpec.Push(e)) == Ok(abs)
      ensures forall i :: 0 <= i < |subs| ==>
                subs[i].ch.queue
                == old(subs[i].ch.queue)
                   + if StoreProps.Passes(subs[i].filter, e) && |old(subs[i].ch.queue)| < 100 then [e] else []
    {
      hide RingHolds, Mirrors, Links, Wf, Queues, StoreProps.Passes, Step;
      ghost var was := abs;
      forall i | 0 <= i < |subs| ensures Waits(subs[i], old(subs[i].ch.queue), was, i) {
        LinkAt(subs, all, abs.subs, abs.chans, i);
        MirrorsQueues(subs[i].ch, abs.chans[abs.subs[i]], abs.history);
      }
      PushStep(e);
      forall i | 0 <= i < |subs|
        ensures subs[i].ch.queue
                == old(subs[i].ch.queue)
                   + if StoreProps.Passes(subs[i].filter, e) && |old(subs[i].ch.queue)| < 100 then [e] else []
      {
        LinkAt(subs, all, abs.subs, abs.chans, i);
        MirrorsQueues(subs[i].ch, abs.chans[abs.subs[i]], abs.history);
        PushedQueue(subs[i], was, abs, e, i, old(subs[i].ch.queue), subs[i].ch.queue);
      }
    }

    method PushStep(e: Event)
      requires Valid()
      requires capacity > 0
      modifies this, ring, all
      ensures Valid() && all == old(all) && subs == old(subs)
      ensures Step(old(abs), StoreSpec.Push(e)) == Ok(abs)
    {
      hide RingHolds, Mirrors, Links, Increasing;
      assert Registered(abs.chans, abs.subs);
      hide Wf;
      NextMod(|abs.history|, UINT64);
      Record(e);
      FanOut(e);
      StepKeepsWf(abs, StoreSpec.Push(e));
      ghost var t := Step(abs, StoreSpec.Push(e)).s;
      LinksAfterFanOut(subs, all, abs.subs, abs.chans, t.chans);
      abs := t;
    }

    /** The ring half of Push: overwrite the slot at the cursor, advance and count. */
    method Record(e: Event)
      requires ring.Length == capacity > 0
      requires RingHolds(ring[..], cursor, count, abs.history)
      modifies this`cursor, this`count, this`total, ring
      ensures RingHolds(ring[..], cursor, count, abs.history + [e])
      ensures total == (old(total) + 1) % UINT64
    {
      RingPush(ring[..], cursor, count, abs.history, e);
      ring[cursor] := e;
      assert ring[..] == old(ring[..])[old(cursor) := e];
      cursor := (cursor + 1) % capacity;
      if count < capacity {
        count := count + 1;
      }
      total := (total + 1) % UINT64;
    }

    /** The broadcast loop of Push: each matching subscriber gets the event or drops it. */
    method FanOut(e: Event)
      requires Wf(abs) && ChannelsValid() && Links(subs, all, abs.subs, abs.chans)
      modifies all
      ensures Broadcast(abs.chans, abs.subs, |abs.history|, e).Some?
      ensures var cs := Broadcast(abs.chans, abs.subs, |abs.history|, e).value;
              && (forall j :: 0 <= j < |all| ==> Mirrors(all[j], cs[j], abs.history + [e]))
              && (forall j :: 0 <= j < |all| ==> cs[j].filter == abs.chans[j].filter)
    {
      ghost var cs := abs.chans;
      ghost var h := abs.history;
      forall j | 0 <= j < |all| ensures Mirrors(all[j], cs[j], h + [e]) {
        MirrorsLonger(all[j], cs[j], h, e);
      }
      for i := 0 to |subs|
        invariant Broadcast(abs.chans, abs.subs[..i], |h|, e) == Some(cs)
        invariant |cs| == |all|
        invariant forall j :: 0 <= j < |cs| ==> cs[j].closedAt == abs.chans[j].closedAt && cs[j].filter == abs.chans[j].filter
        invariant forall j :: 0 <= j < |all| ==> Mirrors(all[j], cs[j], h + [e])
      {
        ghost var id := abs.subs[i];
        assert abs.subs[..i + 1][..i] == abs.subs[..i];
        Deliver(subs[i], e, cs[id], h);
        ghost var was := cs;
        cs := cs[id := Offer(cs[id], |h|, e)];
        forall j | 0 <= j < |all| ensures Mirrors(all[j], cs[j], h + [e]) {
          if j != id {
            assert all[j] != all[id] && cs[j] == was[j];
          }
        }
      }
      assert abs.subs[..|subs|] == abs.subs;
    }

    /** SubscribeWithFilter registers a fresh channel of capacity 100. */
    method SubscribeWithFilter(filter: Filter) returns (ch: Channel<Event>)
      requires Valid()
      modifies this`subs, this`abs, this`all
      ensures Valid() && fresh(ch) && all == old(all) + [ch]
      ensures subs == old(subs) + [Subscriber(ch, filter)] && ch.queue == [] && ch.capacity == 100 && !ch.closed
      ensures Step(old(abs), Subscribe(filter)) == Ok(abs)
    {
      hide RingHolds, Wf;
      ch := new Channel<Event>(SUB_CHAN_CAP);
      subs := subs + [Subscriber(ch, filter)];
      StepKeepsWf(abs, Subscribe(filter));
      abs := Step(abs, Subscribe(filter)).s;
      all := all + [ch];
    }

    lemma ValidLinks()
      requires Valid()
      ensures Wf(abs) && Links(subs, all, abs.subs, abs.chans) && Increasing(abs.subs)
      ensures forall i, j :: 0 <= i < j < |all| ==> all[i] != all[j]
    {
    }

    /** Unsubscribe closes and removes a registered channel; anything else is left untouched. */
    method Unsubscribe(ch: Channel<Event>)
      requires Valid()
      modifies this`subs, this`abs, ch`closed
      ensures Valid() && all == old(all)
      ensures forall id :: 0 <= id < |all| && all[id] == ch ==> Step(old(abs), StoreSpec.Unsubscribe(id)) == Ok(abs)
      ensures forall i :: 0 <= i < |old(subs)| && old(subs)[i].ch == ch ==>
                ch.closed && subs == old(subs)[..i] + old(subs)[i + 1..]
      ensures (forall i :: 0 <= i < |old(subs)| ==> old(subs)[i].ch != ch) ==>
                subs == old(subs) && ch.closed == old(ch.closed)
      ensures ch !in all ==> abs == old(abs) && subs == old(subs) && ch.closed == old(ch.closed)
    {
      hide Valid, Wf, Links, Increasing, Step;
      ValidLinks();
      SubsDistinct(subs, all, abs.subs, abs.chans);
      for i := 0 to |subs|
        invariant forall j :: 0 <= j < i ==> subs[j].ch != ch
      {
        if subs[i].ch == ch {
          LinkAt(subs, all, abs.subs, abs.chans, i);
          CloseAndRemove(i);
          return;
        }
      }
      forall id | 0 <= id < |all| && all[id] == ch
        ensures Step(abs, StoreSpec.Unsubscribe(id)) == Ok(abs)
      {
        NotLinked(subs, all, abs.subs, abs.chans, id);
        StoreProps.UnsubscribeEffect(abs, id);
      }
    }

    /** The body of Unsubscribe's loop once the subscriber at index i is the one to go. */
    method CloseAndRemove(i: nat)
      requires Valid() && i < |subs|
      modifies this`subs, this`abs, subs[i].ch`closed
      ensures Valid() && all == old(all)
      ensures old(subs)[i].ch.closed && subs == old(subs)[..i] + old(subs)[i + 1..]
      ensures Step(old(abs), StoreSpec.Unsubscribe(old(abs).subs[i])) == Ok(abs)
    {
      assert Registered(abs.chans, abs.subs) && Increasing(abs.subs);
      hide Wf, RingHolds, Increasing, RemoveAt;
      ghost var id := abs.subs[i];
      FirstIndex(abs.subs, i);
      StepKeepsWf(abs, StoreSpec.Unsubscribe(id));
      StoreProps.UnsubscribeEffect(abs, id);
      ghost var t := Step(abs, StoreSpec.Unsubscribe(id)).s;
      LinksAfterRemove(subs, all, abs.subs, abs.chans, i, t.chans[id]);
      subs[i].ch.Close();
      subs := subs[..i] + subs[i + 1..];
      abs := t;
    }

    /** A subscriber's receive from its own channel; it takes no lock and touches nothing else. */
    method Receive(ch: Channel<Event>, ghost id: nat) returns (x: Option<Event>)
      requires Valid() && id < |all| && all[id] == ch
      modifies this`abs, ch`queue
      ensures Valid() && all == old(all)
      ensures Step(old(abs), StoreSpec.Receive(id)) == Ok(abs)
      ensures old(ch.queue) != [] ==> x == Some(old(ch.queue)[0]) && ch.queue == old(ch.queue)[1..]
      ensures var q := old(abs).chans[id].queue;
              x == if q == [] then None else Some(abs.history[q[0]])
    {
      StepKeepsWf(abs, StoreSpec.Receive(id));
      x := ch.TryReceive();
      abs := Step(abs, StoreSpec.Receive(id)).s;
    }

    /** Snapshot copies the buffered events oldest first: the last `capacity` of the history. */
    method Snapshot() returns (out: seq<Event>)
      requires Valid()
      ensures out == StoreProps.Snapshot(abs)
      ensures |out| == Min(|abs.history|, capacity)
    {
      if count < capacity {
        out := ring[..count];
      } else {
        out := ring[cursor..] + ring[..cursor];
        assert ring[..][cursor..] == ring[cursor..] && ring[..][..cursor] == ring[..cursor];
      }
    }

    method Stats() returns (r: StoreStats)
      requires Valid()
      ensures r.total == |abs.history| % UINT64
      ensures r.buffered == |StoreProps.Snapshot(abs)|
    {
      r := StoreStats(total, count);
    }
  }

  lemma SmallMod(x: nat, m: nat)
    requires x < m
    ensures x % m == x
  {
  }

  lemma NextMod(n: nat, m: nat)
    requires m > 0
    ensures (n + 1) % m == (n % m + 1) % m
    ensures (n + 1) % m == if n % m + 1 == m then 0 else n % m + 1
  {
    var q, r := n / m, n % m;
    assert n == q * m + r;
    if r + 1 == m {
      assert n + 1 == (q + 1) * m + 0;
      ModOf(n + 1, q + 1, 0, m);
    } else {
      assert n + 1 == q * m + (r + 1);
      ModOf(n + 1, q, r + 1, m);
      SmallMod(r + 1, m);
    }
  }

  lemma ModOf(n: nat, q: nat, r: nat, m: nat)
    requires r < m && n == q * m + r
    ensures n % m == r
  {
    var q' := n / m;
    if q' > q {
      MulGap(q, q', m);
    } else if q' < q {
      MulGap(q', q, m);
    }
  }

  lemma MulGap(a: nat, b: nat, m: nat)
    requires a < b
    ensures a * m + m <= b * m
  {
    assert b * m == a * m + m + (b - a - 1) * m;
  }

  /** While there is room, slots up to the cursor are the history. */
  lemma RingFill(r: seq<Event>, count: nat, h: seq<Event>, e: Event)
    requires count < |r| && r[..count] == h
    ensures r[count := e][..count + 1] == h + [e]
  {
  }

  /** Once full, overwriting the oldest slot drops the oldest event. */
  lemma RingTurn(r: seq<Event>, cursor: nat, h: seq<Event>, e: Event)
    requires cursor < |r| <= |h|
    requires r[cursor..] + r[..cursor] == LastN(h, |r|)
    ensures r[cursor := e][cursor + 1..] + r[cursor := e][..cursor + 1] == LastN(h + [e], |r|)
  {
    var was := r[cursor..] + r[..cursor];
    assert was[1..] + [e] == LastN(h + [e], |r|);
    assert was[1..] == r[cursor + 1..] + r[..cursor];
    assert r[cursor := e][cursor + 1..] == r[cursor + 1..];
    assert r[cursor := e][..cursor + 1] == r[..cursor] + [e];
  }

  /** Writing at the cursor and advancing it appends to what the ring holds. */
  lemma RingPush(r: seq<Event>, cursor: nat, count: nat, h: seq<Event>, e: Event)
    requires |r| > 0 && RingHolds(r, cursor, count, h)
    ensures RingHolds(r[cursor := e], (cursor + 1) % |r|, if count < |r| then count + 1 else count, h + [e])
  {
    NextMod(|h|, |r|);
    var r' := r[cursor := e];
    if count < |r| {
      RingFill(r, count, h, e);
      if count + 1 == |r| {
        assert r'[..|r|] == r' && r'[0..] + r'[..0] == r';
      }
    } else {
      RingTurn(r, cursor, h, e);
      if cursor + 1 == |r| {
        assert r'[cursor + 1..] + r'[..cursor + 1] == r'[0..] + r'[..0];
      }
    }
  }

  lemma FirstIndex(subs: seq<nat>, i: nat)
    requires Increasing(subs) && i < |subs|
    ensures IndexOf(subs, subs[i]) == i
  {
    var j := IndexOf(subs, subs[i]);
    assert forall k :: 0 <= k < j ==> subs[..j][k] == subs[k];
  }
}
