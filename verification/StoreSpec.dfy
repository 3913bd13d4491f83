/** The store as a value: the push history, every subscription ever made, and the registered ones.
    Queued items are named by their position in the history, because markers, logs and DDL items
    all carry ID 0 and only a position identifies them. Each operation is one atomic step, as the
    store's mutex makes it (internal/store/store.go). */
module StoreSpec {
  import opened Seqs
  import opened Events

  const SUB_CHAN_CAP: nat := 100

  /** One subscription: history position at subscribe time, and at close time once unsubscribed. */
  datatype Chan = Chan(
    filter: Filter, since: nat, closedAt: Option<nat>,
    queue: seq<nat>, received: seq<nat>, dropped: seq<nat>)

  datatype State = State(capacity: nat, history: seq<Event>, chans: seq<Chan>, subs: seq<nat>)

  datatype Op = Push(e: Event) | Subscribe(filter: Filter) | Unsubscribe(id: nat) | Receive(id: nat)

  /** Panic is Go's run-time panic: an index out of range, or a send on or close of a closed channel. */
  datatype Outcome = Ok(s: State) | Panic

  function Init(capacity: nat): State {
    State(capacity, [], [], [])
  }

  function Until(c: Chan, h: seq<Event>): nat {
    if c.closedAt.Some? then c.closedAt.value else |h|
  }

  /** Positions in [lo, hi) whose event passes the filter. */
  function Matching(h: seq<Event>, f: Filter, lo: nat, hi: nat): seq<nat>
    requires hi <= |h|
  {
    if hi <= lo then []
    else Matching(h, f, lo, hi - 1) + if f.Match(h[hi - 1]) then [hi - 1] else []
  }

  /** What one subscription does with the event pushed at position pos. */
  function Offer(c: Chan, pos: nat, e: Event): Chan {
    if !c.filter.Match(e) then c
    else if |c.queue| < SUB_CHAN_CAP then c.(queue := c.queue + [pos])
    else c.(dropped := c.dropped + [pos])
  }

  ghost predicate Registered(chans: seq<Chan>, subs: seq<nat>) {
    forall i :: 0 <= i < |subs| ==> subs[i] < |chans|
  }

  /** The fan-out loop over the subscriber list; None is the panic of a send on a closed channel. */
  function Broadcast(chans: seq<Chan>, subs: seq<nat>, pos: nat, e: Event): (r: Option<seq<Chan>>)
    requires Registered(chans, subs)
    ensures r.Some? ==> |r.value| == |chans|
  {
    if subs == [] then Some(chans)
    else
      var k := |subs| - 1;
      match Broadcast(chans, subs[..k], pos, e)
      case None => None
      case Some(cs) =>
        var c := cs[subs[k]];
        if c.filter.Match(e) && c.closedAt.Some? then None
        else Some(cs[subs[k] := Offer(c, pos, e)])
  }

  /** Index of the first occurrence of id, or |subs|. */
  function IndexOf(subs: seq<nat>, id: nat): (i: nat)
    ensures i <= |subs|
    ensures i < |subs| ==> subs[i] == id
    ensures id !in subs[..i]
  {
    if subs == [] then 0
    else if subs[0] == id then 0
    else
      var i := IndexOf(subs[1..], id);
      assert subs[..1 + i] == [subs[0]] + subs[1..][..i];
      1 + i
  }

  function RemoveAt(subs: seq<nat>, i: nat): seq<nat>
    requires i < |subs|
  {
    subs[..i] + subs[i + 1..]
  }

  function ReceiveChan(c: Chan): Chan {
    if c.queue == [] then c
    else c.(received := c.received + [c.queue[0]], queue := c.queue[1..])
  }

  function Step(s: State, op: Op): Outcome
    requires Registered(s.chans, s.subs)
  {
    match op
    case Push(e) =>
      if s.capacity == 0 then Panic
      else (
        match Broadcast(s.chans, s.subs, |s.history|, e)
        case None => Panic
        case Some(cs) => Ok(s.(history := s.history + [e], chans := cs)))
    case Subscribe(f) =>
      Ok(s.(chans := s.chans + [Chan(f, |s.history|, None, [], [], [])],
            subs := s.subs + [|s.chans|]))
    case Unsubscribe(id) =>
      var i := IndexOf(s.subs, id);
      if i == |s.subs| then Ok(s)
      else if s.chans[id].closedAt.Some? then Panic
      else Ok(s.(chans := s.chans[id := s.chans[id].(closedAt := Some(|s.history|))],
                 subs := RemoveAt(s.subs, i)))
    case Receive(id) =>
      if id < |s.chans| then Ok(s.(chans := s.chans[id := ReceiveChan(s.chans[id])])) else Ok(s)
  }

  /** A subscription's books balance: the matching pushes of its lifetime are exactly the received,
      queued and dropped ones, in push order. */
  ghost predicate ChanOk(c: Chan, h: seq<Event>) {
    && c.since <= Until(c, h) <= |h|
    && |c.queue| <= SUB_CHAN_CAP
    && Shuffle<nat>(c.received + c.queue, c.dropped, Matching(h, c.filter, c.since, Until(c, h)))
    && (c.received == [] ==> c.queue + c.dropped == Matching(h, c.filter, c.since, Until(c, h)))
    && (c.received == [] && c.dropped != [] ==> |c.queue| == SUB_CHAN_CAP)
  }

  /** Registered channels are distinct, in subscription order, and exactly the open ones. */
  ghost predicate Wf(s: State) {
    && Registered(s.chans, s.subs)
    && Increasing(s.subs)
    && (forall id :: 0 <= id < |s.chans| ==> (id in s.subs <==> s.chans[id].closedAt.None?))
  }

  ghost predicate Inv(s: State) {
    && Wf(s)
    && (forall id :: 0 <= id < |s.chans| ==> ChanOk(s.chans[id], s.history))
  }

  /** Executing a run of operations one after the other. */
  ghost function Run(s: State, ops: seq<Op>): (r: Outcome)
    requires Wf(s)
    ensures r.Ok? ==> Wf(r.s) && r.s.capacity == s.capacity
    decreases |ops|
  {
    if ops == [] then Ok(s)
    else
      match Run(s, ops[..|ops| - 1])
      case Panic => Panic
      case Ok(s') =>
        StepKeepsWf(s', ops[|ops| - 1]);
        Step(s', ops[|ops| - 1])
  }

  // ---- one step ----

  lemma {:induction false} MatchingStable(h: seq<Event>, e: Event, f: Filter, lo: nat, hi: nat)
    requires hi <= |h|
    ensures Matching(h + [e], f, lo, hi) == Matching(h, f, lo, hi)
    decreases hi
  {
    if lo < hi {
      MatchingStable(h, e, f, lo, hi - 1);
    }
  }

  /** The fan-out loop is the pointwise update of the registered channels, and never panics while
      those are distinct and open. */
  lemma {:induction false} BroadcastPointwise(chans: seq<Chan>, subs: seq<nat>, pos: nat, e: Event)
    requires Registered(chans, subs) && Increasing(subs)
    requires forall i :: 0 <= i < |subs| ==> chans[subs[i]].closedAt.None?
    ensures Broadcast(chans, subs, pos, e).Some?
    ensures forall id :: 0 <= id < |chans| ==>
              Broadcast(chans, subs, pos, e).value[id]
              == if id in subs then Offer(chans[id], pos, e) else chans[id]
    decreases |subs|
  {
    if subs != [] {
      var k := |subs| - 1;
      var init := subs[..k];
      BroadcastPointwise(chans, init, pos, e);
      assert subs == init + [subs[k]];
      assert subs[k] !in init;
    }
  }

  lemma MatchingPush(h: seq<Event>, e: Event, f: Filter, lo: nat)
    requires lo <= |h|
    ensures Matching(h + [e], f, lo, |h| + 1) == Matching(h, f, lo, |h|) + if f.Match(e) then [|h|] else []
  {
    MatchingStable(h, e, f, lo, |h|);
  }

  lemma EnqueueKeeps(c: Chan, h: seq<Event>, e: Event)
    requires ChanOk(c, h) && c.closedAt.None? && c.filter.Match(e) && |c.queue| < SUB_CHAN_CAP
    ensures ChanOk(c.(queue := c.queue + [|h|]), h + [e])
  {
    hide Shuffle, Matching;
    MatchingPush(h, e, c.filter, c.since);
    var m := Matching(h, c.filter, c.since, |h|);
    ShuffleLeft<nat>(c.received + c.queue, c.dropped, m, |h|);
    assert c.received + (c.queue + [|h|]) == c.received + c.queue + [|h|];
    if c.received == [] && c.dropped == [] {
      assert c.queue + [] == c.queue && (c.queue + [|h|]) + [] == c.queue + [|h|];
    }
  }

  lemma DropKeeps(c: Chan, h: seq<Event>, e: Event)
    requires ChanOk(c, h) && c.closedAt.None? && c.filter.Match(e) && |c.queue| == SUB_CHAN_CAP
    ensures ChanOk(c.(dropped := c.dropped + [|h|]), h + [e])
  {
    hide Shuffle, Matching;
    MatchingPush(h, e, c.filter, c.since);
    ShuffleRight<nat>(c.received + c.queue, c.dropped, Matching(h, c.filter, c.since, |h|), |h|);
    assert c.queue + (c.dropped + [|h|]) == c.queue + c.dropped + [|h|];
  }

  lemma OfferKeeps(c: Chan, h: seq<Event>, e: Event)
    requires ChanOk(c, h) && c.closedAt.None?
    ensures ChanOk(Offer(c, |h|, e), h + [e])
  {
    if !c.filter.Match(e) {
      MatchingPush(h, e, c.filter, c.since);
      var m := Matching(h, c.filter, c.since, Until(c, h));
      assert m + [] == m && Until(c, h + [e]) == |h| + 1;
      assert Matching(h + [e], c.filter, c.since, Until(c, h + [e])) == m;
    } else if |c.queue| < SUB_CHAN_CAP {
      EnqueueKeeps(c, h, e);
    } else {
      DropKeeps(c, h, e);
    }
  }

  lemma ClosedKeeps(c: Chan, h: seq<Event>, e: Event)
    requires ChanOk(c, h) && c.closedAt.Some?
    ensures ChanOk(c, h + [e])
  {
    MatchingStable(h, e, c.filter, c.since, Until(c, h));
  }

  lemma ReceiveKeeps(c: Chan, h: seq<Event>)
    requires ChanOk(c, h)
    ensures ChanOk(ReceiveChan(c), h)
  {
    if c.queue != [] {
      assert c.received + [c.queue[0]] + c.queue[1..] == c.received + c.queue;
    }
  }

  lemma RemoveAtElements(subs: seq<nat>, i: nat)
    requires Increasing(subs) && i < |subs|
    ensures Increasing(RemoveAt(subs, i))
    ensures forall x :: x in RemoveAt(subs, i) <==> x in subs && x != subs[i]
  {
    assert subs == subs[..i] + [subs[i]] + subs[i + 1..];
    IncreasingWithout(subs[..i], subs[i], subs[i + 1..]);
  }

  lemma PushKeepsWf(s: State, e: Event)
    requires Wf(s)
    ensures Step(s, Push(e)).Panic? <==> s.capacity == 0
    ensures Step(s, Push(e)).Ok? ==> Wf(Step(s, Push(e)).s) && Step(s, Push(e)).s.capacity == s.capacity
  {
    hide Broadcast, Increasing;
    BroadcastPointwise(s.chans, s.subs, |s.history|, e);
  }

  lemma SubscribeKeepsWf(s: State, f: Filter)
    requires Wf(s)
    ensures Wf(Step(s, Subscribe(f)).s)
  {
    var t := Step(s, Subscribe(f)).s;
    assert forall id :: id in t.subs <==> id in s.subs || id == |s.chans|;
  }

  lemma UnsubscribeKeepsWf(s: State, id: nat)
    requires Wf(s)
    ensures Step(s, Unsubscribe(id)).Ok? && Wf(Step(s, Unsubscribe(id)).s)
    ensures Step(s, Unsubscribe(id)).s.capacity == s.capacity
  {
    hide IndexOf, RemoveAt;
    var i := IndexOf(s.subs, id);
    if i < |s.subs| {
      RemoveAtElements(s.subs, i);
      assert id in s.subs;
      hide Increasing;
      RemovedRegistered(s.subs, i, |s.chans|);
    }
  }

  lemma RemovedRegistered(subs: seq<nat>, i: nat, n: nat)
    requires i < |subs| && forall j :: 0 <= j < |subs| ==> subs[j] < n
    ensures forall j :: 0 <= j < |RemoveAt(subs, i)| ==> RemoveAt(subs, i)[j] < n
  {
  }

  /** Every operation keeps the registrations in order, and only a push into a store of capacity 0
      panics: no send reaches a closed channel and none is closed twice. */
  lemma StepKeepsWf(s: State, op: Op)
    requires Wf(s)
    ensures Step(s, op).Panic? <==> op.Push? && s.capacity == 0
    ensures Step(s, op).Ok? ==> Wf(Step(s, op).s) && Step(s, op).s.capacity == s.capacity
  {
    match op {
      case Push(e) =>
        PushKeepsWf(s, e);
        hide Step, Wf;
      case Subscribe(f) =>
        SubscribeKeepsWf(s, f);
        hide Wf;
      case Unsubscribe(id) =>
        UnsubscribeKeepsWf(s, id);
        hide Step, Wf;
      case Receive(id) =>
        hide Increasing;
    }
  }

  /** Every operation keeps every subscription's books balanced. */
  lemma StepKeepsInv(s: State, op: Op)
    requires Inv(s) && Step(s, op).Ok?
    ensures Inv(Step(s, op).s)
  {
    StepKeepsWf(s, op);
    var t := Step(s, op).s;
    match op
    case Push(e) =>
      BroadcastPointwise(s.chans, s.subs, |s.history|, e);
      forall id | 0 <= id < |s.chans| ensures ChanOk(t.chans[id], t.history) {
        if id in s.subs {
          OfferKeeps(s.chans[id], s.history, e);
        } else {
          ClosedKeeps(s.chans[id], s.history, e);
        }
      }
    case Subscribe(f) =>
      assert ChanOk(t.chans[|s.chans|], s.history);
    case Unsubscribe(id) =>
      if IndexOf(s.subs, id) < |s.subs| {
        assert ChanOk(s.chans[id].(closedAt := Some(|s.history|)), s.history);
      }
    case Receive(id) =>
      if id < |s.chans| {
        ReceiveKeeps(s.chans[id], s.history);
      }
  }

  lemma {:induction false} RunKeepsInv(s: State, ops: seq<Op>)
    requires Inv(s) && Run(s, ops).Ok?
    ensures Inv(Run(s, ops).s)
    decreases |ops|
  {
    if ops != [] {
      RunKeepsInv(s, ops[..|ops| - 1]);
      StepKeepsInv(Run(s, ops[..|ops| - 1]).s, ops[|ops| - 1]);
    }
  }
}
