/** core.Run's hand-off as internal/core/runner.go writes it: a bounded channel filled by the
    listener's lossy sends, drained by the forwarder loop, closed, then waited for. */
module Runners {
  import opened Seqs
  import opened Events
  import opened Channels
  import Stores
  import StoreSpec
  import StoreProps

  /** One step of a schedule: the listener's send, a turn of the forwarder's loop, or a push by the DDL
      goroutine or the marker API. */
  datatype Step = Send(e: Event) | Turn | Push(e: Event)

  function Sent(steps: seq<Step>): seq<Event> {
    if steps == [] then []
    else
      var k := |steps| - 1;
      Sent(steps[..k]) + if steps[k].Send? then [steps[k].e] else []
  }

  function Pushed(steps: seq<Step>): seq<Event> {
    if steps == [] then []
    else
      var k := |steps| - 1;
      Pushed(steps[..k]) + if steps[k].Push? then [steps[k].e] else []
  }

  /** When the forwarder runs, and how many events the channel holds. */
  datatype Setup = Setup(doneAt: Option<nat>, capacity: nat)
  {
    /** The forwarder's select has not taken the cancelled context before step k. */
    predicate Alive(k: nat) { doneAt.None? || k < doneAt.value }
  }

  /** How many events the channel holds after the steps, read off them alone. */
  function Backlog(steps: seq<Step>, u: Setup): nat {
    if steps == [] then 0
    else
      var k := |steps| - 1;
      var b := Backlog(steps[..k], u);
      match steps[k]
      case Send(_) => Min(b + 1, u.capacity)
      case Turn => if b > 0 && u.Alive(k) then b - 1 else b
      case Push(_) => b
  }

  /** How many turns of the forwarder found an event. */
  function Served(steps: seq<Step>, u: Setup): nat {
    if steps == [] then 0
    else
      var k := |steps| - 1;
      Served(steps[..k], u) + if steps[k].Turn? && u.Alive(k) && Backlog(steps[..k], u) > 0 then 1 else 0
  }

  /** The events sent while the channel had room. */
  function Kept(steps: seq<Step>, u: Setup): seq<Event> {
    if steps == [] then []
    else
      var k := |steps| - 1;
      Kept(steps[..k], u) + if steps[k].Send? && Backlog(steps[..k], u) < u.capacity then [steps[k].e] else []
  }

  /** The events sent while it was full. */
  function Lost(steps: seq<Step>, u: Setup): seq<Event> {
    if steps == [] then []
    else
      var k := |steps| - 1;
      Lost(steps[..k], u) + if steps[k].Send? && Backlog(steps[..k], u) == u.capacity then [steps[k].e] else []
  }

  /** What the store has gained: the others' pushes, and at each turn that found an event the oldest one
      not yet forwarded. */
  function Gained(steps: seq<Step>, u: Setup): seq<Event> {
    if steps == [] then []
    else
      var k := |steps| - 1;
      var n := Served(steps[..k], u);
      Gained(steps[..k], u)
      + if steps[k].Push? then [steps[k].e]
        else if n < Served(steps, u) && n < |Kept(steps[..k], u)| then [Kept(steps[..k], u)[n]]
        else []
  }

  /** The books after some steps. */
  ghost predicate Lawful(calls: seq<Event>, queue: seq<Event>, dropped: seq<Event>, added: seq<Event>, steps: seq<Step>, u: Setup) {
    && calls + queue == Kept(steps, u) && |calls| == Served(steps, u) && |queue| == Backlog(steps, u) <= u.capacity
    && dropped == Lost(steps, u) && added == Gained(steps, u)
  }

  lemma LawfulSend(calls: seq<Event>, queue: seq<Event>, dropped: seq<Event>, added: seq<Event>, steps: seq<Step>, u: Setup, e: Event)
    requires Lawful(calls, queue, dropped, added, steps, u)
    ensures |queue| < u.capacity ==> Lawful(calls, queue + [e], dropped, added, steps + [Send(e)], u)
    ensures u.capacity <= |queue| ==> Lawful(calls, queue, dropped + [e], added, steps + [Send(e)], u)
  {
    var all := steps + [Send(e)];
    assert all[..|steps|] == steps && all[|steps|] == Send(e);
    assert Gained(steps, u) + [] == Gained(steps, u) && Lost(steps, u) + [] == Lost(steps, u)
        && Kept(steps, u) + [] == Kept(steps, u);
    assert calls + (queue + [e]) == calls + queue + [e];
  }

  lemma LawfulPush(calls: seq<Event>, queue: seq<Event>, dropped: seq<Event>, added: seq<Event>, steps: seq<Step>, u: Setup, e: Event)
    requires Lawful(calls, queue, dropped, added, steps, u)
    ensures Lawful(calls, queue, dropped, added + [e], steps + [Push(e)], u)
  {
    var all := steps + [Push(e)];
    assert all[..|steps|] == steps && all[|steps|] == Push(e);
    assert Lost(steps, u) + [] == Lost(steps, u) && Kept(steps, u) + [] == Kept(steps, u);
  }

  lemma LawfulIdle(calls: seq<Event>, queue: seq<Event>, dropped: seq<Event>, added: seq<Event>, steps: seq<Step>, u: Setup)
    requires Lawful(calls, queue, dropped, added, steps, u)
    requires queue == [] || !u.Alive(|steps|)
    ensures Lawful(calls, queue, dropped, added, steps + [Turn], u)
  {
    var all := steps + [Turn];
    assert all[..|steps|] == steps && all[|steps|] == Turn;
    assert Gained(steps, u) + [] == Gained(steps, u) && Lost(steps, u) + [] == Lost(steps, u)
        && Kept(steps, u) + [] == Kept(steps, u);
  }

  lemma LawfulTurn(calls: seq<Event>, queue: seq<Event>, dropped: seq<Event>, added: seq<Event>, steps: seq<Step>, u: Setup)
    requires Lawful(calls, queue, dropped, added, steps, u) && queue != [] && u.Alive(|steps|)
    ensures Lawful(calls + [queue[0]], queue[1..], dropped, added + [queue[0]], steps + [Turn], u)
  {
    var all := steps + [Turn];
    assert all[..|steps|] == steps && all[|steps|] == Turn;
    assert Lost(steps, u) + [] == Lost(steps, u) && Kept(steps, u) + [] == Kept(steps, u);
    assert calls + [queue[0]] + queue[1..] == calls + queue;
    assert Kept(steps, u)[|calls|] == queue[0];
  }

  lemma LawfulStart(u: Setup)
    ensures Lawful([], [], [], [], [], u)
  {
  }

  lemma {:induction false} BacklogBound(steps: seq<Step>, u: Setup)
    ensures Backlog(steps, u) <= u.capacity
    ensures Served(steps, u) + Backlog(steps, u) == |Kept(steps, u)|
    decreases |steps|
  {
    if steps != [] {
      BacklogBound(steps[..|steps| - 1], u);
    }
  }

  /** Every event sent was kept or lost, in order; a schedule whose backlog never fills loses nothing. */
  lemma {:induction false} KeptAndLost(steps: seq<Step>, u: Setup)
    ensures Shuffle<Event>(Kept(steps, u), Lost(steps, u), Sent(steps))
    ensures (forall k :: 0 <= k < |steps| && steps[k].Send? ==> Backlog(steps[..k], u) < u.capacity) ==>
              Lost(steps, u) == [] && Kept(steps, u) == Sent(steps)
    decreases |steps|
  {
    hide Backlog, Shuffle;
    if steps == [] {
      ShuffleNone<Event>();
    } else {
      var k := |steps| - 1;
      var init := steps[..k];
      KeptAndLost(init, u);
      BacklogBound(init, u);
      var kept, lost, sent := Kept(init, u), Lost(init, u), Sent(init);
      assert kept + [] == kept && lost + [] == lost && sent + [] == sent;
      if steps[k].Send? {
        ShuffleLeft<Event>(kept, lost, sent, steps[k].e);
        ShuffleRight<Event>(kept, lost, sent, steps[k].e);
      }
      if forall j :: 0 <= j < |steps| && steps[j].Send? ==> Backlog(steps[..j], u) < u.capacity {
        forall j | 0 <= j < k && init[j].Send? ensures Backlog(init[..j], u) < u.capacity {
          assert init[..j] == steps[..j] && steps[j].Send?;
        }
      }
    }
  }

  /** The store gains the forwarded events and the others' pushes, each in order. */
  lemma {:induction false} GainedMerges(steps: seq<Step>, u: Setup)
    ensures Served(steps, u) <= |Kept(steps, u)|
    ensures Shuffle<Event>(Kept(steps, u)[..Served(steps, u)], Pushed(steps), Gained(steps, u))
    decreases |steps|
  {
    hide Backlog, Shuffle;
    BacklogBound(steps, u);
    if steps == [] {
      ShuffleNone<Event>();
      assert Kept(steps, u)[..Served(steps, u)] == [];
    } else {
      var k := |steps| - 1;
      var init := steps[..k];
      BacklogBound(init, u);
      GainedMerges(init, u);
      var n := Served(init, u);
      var front, others, gained := Kept(init, u)[..n], Pushed(init), Gained(init, u);
      assert front + [] == front && others + [] == others && gained + [] == gained;
      assert Kept(steps, u)[..n] == front;
      if steps[k].Push? {
        ShuffleRight<Event>(front, others, gained, steps[k].e);
      } else if n < Served(steps, u) {
        var x := Kept(steps, u)[n];
        assert Kept(steps, u)[..n + 1] == front + [x];
        ShuffleLeft<Event>(front, others, gained, x);
      }
    }
  }

  /** A short schedule cannot fill the channel. */
  lemma {:induction false} ShortBacklog(steps: seq<Step>, u: Setup)
    ensures Backlog(steps, u) <= |steps|
    ensures |steps| <= u.capacity ==> Lost(steps, u) == []
    decreases |steps|
  {
    if steps != [] {
      ShortBacklog(steps[..|steps| - 1], u);
    }
  }

  /** Each event sent and then forwarded before the next. */
  function Prompt(events: seq<Event>): seq<Step> {
    if events == [] then []
    else
      var k := |events| - 1;
      Prompt(events[..k]) + [Send(events[k]), Turn]
  }

  /** A forwarder that keeps up loses nothing, however long it runs and however small the channel. */
  lemma {:induction false} PromptForwarder(events: seq<Event>, u: Setup)
    requires u.capacity > 0 && u.doneAt.None?
    ensures Lost(Prompt(events), u) == [] && Kept(Prompt(events), u) == events
    ensures Backlog(Prompt(events), u) == 0 && Gained(Prompt(events), u) == events
    decreases |events|
  {
    hide Backlog, Served, Kept, Lost, Gained;
    if events == [] {
      LawfulStart(u);
    } else {
      var k := |events| - 1;
      var init, e := events[..k], events[k];
      PromptForwarder(init, u);
      BacklogBound(Prompt(init), u);
      assert init + [] == init && [] + [e] == [e] && init + [e] == events;
      LawfulSend(init, [], [], init, Prompt(init), u, e);
      LawfulTurn(init, [e], [], init, Prompt(init) + [Send(e)], u);
      assert Prompt(init) + [Send(e)] + [Turn] == Prompt(events);
      assert [e][1..] == [] && events + [] == events;
    }
  }

  /** Up to n turns of the forwarder's loop: receive, push, then call onEvent. It ends early when
      nothing is buffered: the loop blocks, or returns once the channel is closed. */
  method Forward(listenerIn: Channel<Event>, st: Stores.Store, n: nat) returns (calls: seq<Event>)
    requires st.Valid() && st.capacity > 0 && listenerIn !in st.all
    modifies listenerIn`queue, st, st.ring, st.all
    ensures st.Valid() && st.all == old(st.all)
    ensures |calls| == Min(n, |old(listenerIn.queue)|) && calls == old(listenerIn.queue)[..|calls|]
    ensures listenerIn.queue == old(listenerIn.queue)[|calls|..]
    ensures st.abs.history == old(st.abs.history) + calls
  {
    hide StoreSpec.Wf, Stores.RingHolds, Stores.Links, Stores.Mirrors;
    calls := [];
    var k := 0;
    while k < n
      invariant st.Valid() && st.all == old(st.all)
      invariant |calls| == k <= |old(listenerIn.queue)| && k <= n
      invariant calls == old(listenerIn.queue)[..k] && listenerIn.queue == old(listenerIn.queue)[k..]
      invariant st.abs.history == old(st.abs.history) + calls
    {
      var e := listenerIn.TryReceive();
      if e.None? {
        break;
      }
      ghost var before := st.abs;
      assert StoreSpec.Wf(before);
      st.Push(e.value);
      StoreProps.StepHistory(before, StoreSpec.Push(e.value));
      calls := calls + [e.value];
      k := k + 1;
    }
  }

  /** A push by somebody else. */
  method PushOther(st: Stores.Store, e: Event)
    requires st.Valid() && st.capacity > 0
    modifies st, st.ring, st.all
    ensures st.Valid() && st.all == old(st.all) && st.abs.history == old(st.abs.history) + [e]
  {
    hide Stores.RingHolds, Stores.Links, Stores.Mirrors;
    ghost var before := st.abs;
    st.Push(e);
    StoreProps.StepHistory(before, StoreSpec.Push(e));
  }

  /** One turn of the forwarder's loop while the listener runs, with the books. */
  method TakeTurn(listenerIn: Channel<Event>, st: Stores.Store, alive: bool,
      ghost calls: seq<Event>, ghost dropped: seq<Event>, ghost added: seq<Event>, ghost steps: seq<Step>, ghost u: Setup)
    returns (more: seq<Event>)
    requires st.Valid() && st.capacity > 0 && listenerIn !in st.all
    requires Lawful(calls, listenerIn.queue, dropped, added, steps, u) && alive == u.Alive(|steps|)
    modifies listenerIn`queue, st, st.ring, st.all
    ensures st.Valid() && st.all == old(st.all)
    ensures st.abs.history == old(st.abs.history) + more
    ensures Lawful(calls + more, listenerIn.queue, dropped, added + more, steps + [Turn], u)
  {
    hide Lawful, Stores.Store.Valid;
    more := [];
    if alive {
      more := Forward(listenerIn, st, 1);
    }
    if more == [] {
      assert calls + more == calls && added + more == added && listenerIn.queue == old(listenerIn.queue);
      LawfulIdle(calls, listenerIn.queue, dropped, added, steps, u);
    } else {
      assert more == [old(listenerIn.queue)[0]];
      LawfulTurn(calls, old(listenerIn.queue), dropped, added, steps, u);
    }
  }

  /** Run. `steps` is how the listener, the forwarder and other pushers interleave until the listener
      returns; `doneAt` is the step, counting on through the drain, at which the forwarder's select takes
      the cancelled context. An event is dropped exactly when it is sent into a full channel, by the
      count of sends and turns before it; every other one is pushed at its turn or in the drain, then
      announced, in order; and only under cancellation some are left. */
  method Run(st: Stores.Store, steps: seq<Step>, doneAt: Option<nat>, listenerErr: Option<string>)
    returns (err: Option<string>, calls: seq<Event>, ghost added: seq<Event>, ghost left: seq<Event>, ghost dropped: seq<Event>)
    requires st.Valid() && st.capacity > 0
    modifies st, st.ring, st.all
    ensures st.Valid() && err == listenerErr
    ensures st.abs.history == old(st.abs.history) + added
    ensures var u := Setup(doneAt, st.capacity);
            && calls + left == Kept(steps, u) && dropped == Lost(steps, u)
            && Served(steps, u) <= |calls| && added == Gained(steps, u) + calls[Served(steps, u)..]
            && |left| == if doneAt.None? then 0 else Max(0, Backlog(steps, u) - Max(0, doneAt.value - |steps|))
    ensures Shuffle<Event>(calls, Pushed(steps), added)
    ensures Shuffle<Event>(calls + left, dropped, Sent(steps))
    ensures |steps| <= st.capacity ==> dropped == []
  {
    hide Stores.Store.Valid, Lawful, Backlog, Shuffle, Kept, Lost, Served, Gained, Sent, Pushed;
    ghost var u := Setup(doneAt, st.capacity);
    var listenerIn := new Channel<Event>(st.capacity);
    calls, added, dropped := [], [], [];
    LawfulStart(u);
    for i := 0 to |steps|
      invariant fresh(listenerIn) && !listenerIn.closed && listenerIn.capacity == st.capacity
      invariant st.Valid() && st.all == old(st.all)
      invariant st.abs.history == old(st.abs.history) + added
      invariant Lawful(calls, listenerIn.queue, dropped, added, steps[..i], u)
    {
      ghost var done := steps[..i];
      assert steps[..i + 1] == done + [steps[i]];
      match steps[i] {
        case Send(e) =>
          LawfulSend(calls, listenerIn.queue, dropped, added, done, u, e);
          var sent := listenerIn.TrySend(e);
          if !sent {
            dropped := dropped + [e];
          }
        case Turn =>
          var alive := doneAt.None? || i < doneAt.value;
          var more := TakeTurn(listenerIn, st, alive, calls, dropped, added, done, u);
          calls, added := calls + more, added + more;
        case Push(e) =>
          LawfulPush(calls, listenerIn.queue, dropped, added, done, u, e);
          PushOther(st, e);
          added := added + [e];
      }
    }
    assert steps[..|steps|] == steps;
    listenerIn.Close();
    var turns := |listenerIn.queue|;
    if doneAt.Some? {
      turns := Max(0, doneAt.value - |steps|);
    }
    ghost var q := listenerIn.queue;
    var rest := Forward(listenerIn, st, turns);
    assert q == rest + listenerIn.queue;
    FinalBooks(calls, rest, listenerIn.queue, dropped, added, steps, u);
    calls, added := calls + rest, added + rest;
    left := listenerIn.queue;
    err := listenerErr;
  }

  /** What the books come to once the drain has forwarded `rest` and left the others. */
  lemma FinalBooks(calls: seq<Event>, rest: seq<Event>, left: seq<Event>, dropped: seq<Event>, added: seq<Event>,
      steps: seq<Step>, u: Setup)
    requires Lawful(calls, rest + left, dropped, added, steps, u)
    ensures calls + rest + left == Kept(steps, u) && dropped == Lost(steps, u)
    ensures Served(steps, u) <= |calls + rest|
    ensures added + rest == Gained(steps, u) + (calls + rest)[Served(steps, u)..]
    ensures |rest| + |left| == Backlog(steps, u)
    ensures Shuffle<Event>(calls + rest, Pushed(steps), added + rest)
    ensures Shuffle<Event>(calls + rest + left, dropped, Sent(steps))
    ensures |steps| <= u.capacity ==> dropped == []
  {
    hide Lawful, Shuffle;
    LawfulMeans(calls, rest + left, dropped, added, steps, u);
    KeptAndLost(steps, u);
    ShortBacklog(steps, u);
    GainedMerges(steps, u);
    assert calls + rest + left == calls + (rest + left);
    assert (calls + rest)[|calls|..] == rest;
    assert Kept(steps, u)[..Served(steps, u)] == calls;
    ShuffleLefts<Event>(calls, Pushed(steps), added, rest);
  }

  lemma LawfulMeans(calls: seq<Event>, queue: seq<Event>, dropped: seq<Event>, added: seq<Event>, steps: seq<Step>, u: Setup)
    requires Lawful(calls, queue, dropped, added, steps, u)
    ensures calls + queue == Kept(steps, u) && |calls| == Served(steps, u) && |queue| == Backlog(steps, u)
    ensures dropped == Lost(steps, u) && added == Gained(steps, u)
  {
  }
}
