/** What core.Run guarantees about the events that reach the store, over every interleaving. */
module RunnerProps {
  import opened Seqs
  import opened Events
  import opened RunnerSpec
  import L = ListenerSpec
  import LP = ListenerProps
  import St = StoreSpec
  import SP = StoreProps

  function Forwarded(w: World): seq<Event>
    requires |w.store.history| == |w.sources|
  {
    PushedBy(w.store.history, w.sources, FromListener)
  }

  /** The store's history was the given one before the run. */
  ghost predicate StoreOk(w: World) {
    St.Wf(w.store) && w.store.capacity > 0 && |w.store.history| == |w.sources|
  }

  /** Every event received from the channel is pushed or in the forwarder's hand, and is announced
      after it is pushed. */
  ghost predicate HandOff(w: World)
    requires |w.store.history| == |w.sources|
  {
    && Forwarded(w) + Held(w.pc) == w.loop.taken
    && CalledBy(w.calls, FromListener) + Unannounced(w.pc) == Forwarded(w)
    && CalledBy(w.calls, FromDDL) + (if w.ddl.Some? then [w.ddl.value] else [])
       == PushedBy(w.store.history, w.sources, FromDDL)
    && CalledBy(w.calls, FromOther) == []
  }

  ghost predicate Ending(w: World) {
    && (w.pc == Exited ==> w.cancelled || (w.stopped && w.loop.queue == []))
    && (w.returned ==> w.stopped && w.pc == Exited)
  }

  ghost predicate RunnerInv(w: World, counter: nat, start: nat) {
    && StoreOk(w) && HandOff(w) && Ending(w)
    && LP.LoopInv(w.loop, w.turns, counter, start)
  }

  // ---- one step ----

  lemma PushFacts(w: World, source: Source, e: Event)
    requires StoreOk(w)
    ensures var r := PushInto(w, source, e);
            && StoreOk(r)
            && r == w.(store := r.store, sources := w.sources + [source])
            && r.store.history == w.store.history + [e]
            && forall s: Source :: PushedBy(r.store.history, r.sources, s)
                 == PushedBy(w.store.history, w.sources, s) + if s == source then [e] else []
  {
    assert St.Registered(w.store.chans, w.store.subs);
    hide St.Wf;
    St.StepKeepsWf(w.store, St.Push(e));
    SP.StepHistory(w.store, St.Push(e));
    var r := PushInto(w, source, e);
    var k := |w.store.history|;
    assert r.store.history[..k] == w.store.history && r.sources[..k] == w.sources;
  }

  lemma CallFacts(calls: seq<Call>, c: Call)
    ensures forall s: Source ::
              CalledBy(calls + [c], s) == CalledBy(calls, s) + if c.source == s then [c.e] else []
  {
    assert (calls + [c])[..|calls|] == calls;
  }

  lemma IterateFrame(s: L.Loop, t: L.Turn, capacity: nat)
    requires t.drained == 0
    ensures L.Iterate(s, t, capacity).taken == s.taken
  {
  }

  lemma DrainKeeps(s: L.Loop, ts: seq<L.Turn>, counter: nat, start: nat)
    requires LP.LoopInv(s, ts, counter, start)
    ensures LP.LoopInv(L.Drain(s, 1), ts, counter, start)
  {
    hide LP.Tracks, LP.AcksTrack;
    LP.DrainTracks(s, ts[..s.seen], counter, start, 1);
  }

  lemma ListenerKeeps(w: World, a: Action, counter: nat, start: nat)
    requires RunnerInv(w, counter, start) && (a.Turn? || a.ListenerReturns?)
    ensures RunnerInv(ListenerStep(w, a), counter, start)
  {
    hide LP.LoopInv, L.Iterate, PushedBy, CalledBy, St.Wf;
    if a.Turn? && !w.stopped {
      var t := a.t.(drained := 0);
      IterateFrame(w.loop, t, w.store.capacity);
      LP.IterateKeeps(w.loop, w.turns, t, counter, start, w.store.capacity);
    }
  }

  lemma TakeKeeps(w: World, counter: nat, start: nat)
    requires RunnerInv(w, counter, start) && w.pc == Selecting && w.loop.queue != []
    ensures var e := w.loop.queue[0];
            RunnerInv(w.(pc := Pushing(e), loop := L.Drain(w.loop, 1)), counter, start)
  {
    hide LP.LoopInv, PushedBy, CalledBy, St.Wf;
    DrainKeeps(w.loop, w.turns, counter, start);
    assert w.loop.queue[..1] == [w.loop.queue[0]];
    assert Forwarded(w) + [] == Forwarded(w);
    assert CalledBy(w.calls, FromListener) + [] == CalledBy(w.calls, FromListener);
  }

  lemma ForwardKeeps(w: World, counter: nat, start: nat)
    requires RunnerInv(w, counter, start) && w.pc.Pushing?
    ensures RunnerInv(PushInto(w, FromListener, w.pc.e).(pc := Notifying(w.pc.e)), counter, start)
  {
    PushFacts(w, FromListener, w.pc.e);
    hide LP.LoopInv, PushedBy, CalledBy, PushInto, St.Wf;
    var r := PushInto(w, FromListener, w.pc.e);
    assert Forwarded(r) + [] == Forwarded(r);
    assert CalledBy(w.calls, FromListener) + [] == CalledBy(w.calls, FromListener);
  }

  lemma NotifyKeeps(w: World, counter: nat, start: nat)
    requires RunnerInv(w, counter, start) && w.pc.Notifying?
    ensures RunnerInv(w.(pc := Selecting, calls := w.calls + [Call(FromListener, w.pc.e)]), counter, start)
  {
    hide LP.LoopInv, PushedBy, CalledBy, St.Wf;
    CallFacts(w.calls, Call(FromListener, w.pc.e));
    var r := w.(pc := Selecting, calls := w.calls + [Call(FromListener, w.pc.e)]);
    assert CalledBy(r.calls, FromListener) + [] == CalledBy(r.calls, FromListener);
  }

  lemma ForwarderKeeps(w: World, a: Action, counter: nat, start: nat)
    requires RunnerInv(w, counter, start) && OfForwarder(a)
    ensures RunnerInv(ForwarderStep(w, a), counter, start)
  {
    assert St.Registered(w.store.chans, w.store.subs);
    if a.Take? {
      if w.pc == Selecting && w.loop.queue != [] { TakeKeeps(w, counter, start); }
    } else if a.Forward? {
      if w.pc.Pushing? { ForwardKeeps(w, counter, start); }
    } else if a.Notify? {
      if w.pc.Notifying? { NotifyKeeps(w, counter, start); }
    } else {
      hide LP.LoopInv, PushedBy, CalledBy, PushInto, St.Wf;
    }
  }

  lemma SubscriberFacts(w: World, op: St.Op)
    requires StoreOk(w) && !op.Push?
    ensures var r := Next(w, Subscriber(op));
            StoreOk(r) && r == w.(store := r.store) && r.store.history == w.store.history
  {
    St.StepKeepsWf(w.store, op);
    SP.StepHistory(w.store, op);
  }

  /** Every action keeps the hand-off exact. */
  lemma NextKeeps(w: World, a: Action, counter: nat, start: nat)
    requires RunnerInv(w, counter, start)
    ensures RunnerInv(Next(w, a), counter, start)
  {
    hide LP.LoopInv, PushedBy, CalledBy, PushInto, ListenerStep, ForwarderStep, St.Wf;
    if a.Turn? || a.ListenerReturns? {
      ListenerKeeps(w, a, counter, start);
    } else if OfForwarder(a) {
      ForwarderKeeps(w, a, counter, start);
    } else {
      match a
      case DDLPush(e) =>
        PushFacts(w, FromDDL, e);
        assert CalledBy(w.calls, FromDDL) + [] == CalledBy(w.calls, FromDDL);
      case DDLNotify =>
        if w.ddl.Some? {
          CallFacts(w.calls, Call(FromDDL, w.ddl.value));
        }
      case OtherPush(e) => PushFacts(w, FromOther, e);
      case Subscriber(op) =>
        if !op.Push? {
          SubscriberFacts(w, op);
        }
      case Cancel =>
      case Return =>
    }
  }

  // ---- whole runs ----

  lemma {:induction false} NothingForwarded(history: seq<Event>, sources: seq<Source>, source: Source)
    requires |history| == |sources| && forall i :: 0 <= i < |sources| ==> sources[i] != source
    ensures PushedBy(history, sources, source) == []
    decreases |history|
  {
    if history != [] {
      NothingForwarded(history[..|history| - 1], sources[..|history| - 1], source);
    }
  }

  lemma StartInv(s: St.State, counter: nat, start: nat)
    requires St.Wf(s) && s.capacity > 0 && counter < UINT64
    ensures RunnerInv(Start(s, counter, start), counter, start)
  {
    hide LP.LoopInv, St.Wf;
    LP.StartKeeps(counter, start);
    var w := Start(s, counter, start);
    NothingForwarded(s.history, w.sources, FromListener);
    NothingForwarded(s.history, w.sources, FromDDL);
  }

  ghost function Run(w: World, acts: seq<Action>, counter: nat, start: nat): (r: World)
    requires RunnerInv(w, counter, start)
    ensures RunnerInv(r, counter, start)
    decreases |acts|
  {
    if acts == [] then w
    else
      var r := Run(w, acts[..|acts| - 1], counter, start);
      NextKeeps(r, acts[|acts| - 1], counter, start);
      Next(r, acts[|acts| - 1])
  }

  /** The world after a run that starts with the given store. */
  ghost function Reach(s: St.State, acts: seq<Action>, counter: nat, start: nat): (r: World)
    requires St.Wf(s) && s.capacity > 0 && counter < UINT64
    ensures RunnerInv(r, counter, start)
  {
    StartInv(s, counter, start);
    Run(Start(s, counter, start), acts, counter, start)
  }

  /** Every event the stream yields is, exactly once and in order, either dropped at the full channel
      or pushed, held or queued, whatever else is pushed in between. When Run has returned without
      cancellation nothing is held or queued any more; when nothing was dropped either, the listener's
      part of the history is the stream's events themselves. */
  lemma ForwarderDrain(s: St.State, acts: seq<Action>, counter: nat, start: nat)
    requires St.Wf(s) && s.capacity > 0 && counter < UINT64
    ensures var w := Reach(s, acts, counter, start);
            && |w.store.history| == |w.sources| && w.loop.seen <= |w.turns|
            && var offered := LP.Offered(w.turns[..w.loop.seen], counter);
               var enqueued := Forwarded(w) + Held(w.pc) + w.loop.queue;
               && Shuffle<Event>(enqueued, w.loop.dropped, offered)
               && Forwarded(w) <= enqueued
               && (w.returned && !w.cancelled ==> Forwarded(w) == enqueued)
               && (w.returned && !w.cancelled && w.loop.dropped == [] ==> Forwarded(w) == offered)
  {
    hide CalledBy, PushedBy, St.Wf, LP.CacheIsLatest, LP.IsHighest, LP.AcksTrack, LP.Offered, Shuffle, Run;
    var w := Reach(s, acts, counter, start);
    var offered := LP.Offered(w.turns[..w.loop.seen], counter);
    var enqueued := Forwarded(w) + Held(w.pc) + w.loop.queue;
    assert enqueued == w.loop.taken + w.loop.queue;
    assert Forwarded(w) == enqueued[..|Forwarded(w)|];
    if w.returned && !w.cancelled {
      assert enqueued == Forwarded(w);
      if w.loop.dropped == [] {
        ShuffleAlone<Event>(Forwarded(w), offered);
      }
    }
  }

  /** onEvent sees every source's events in push order and after the push, at most one behind; once
      Run has returned it has seen all of the listener's. */
  lemma CallsFollowPushes(s: St.State, acts: seq<Action>, counter: nat, start: nat)
    requires St.Wf(s) && s.capacity > 0 && counter < UINT64
    ensures var w := Reach(s, acts, counter, start);
            && |w.store.history| == |w.sources|
            && CalledBy(w.calls, FromListener) <= Forwarded(w)
            && |Forwarded(w)| <= |CalledBy(w.calls, FromListener)| + 1
            && (w.returned ==> CalledBy(w.calls, FromListener) == Forwarded(w))
            && CalledBy(w.calls, FromDDL) <= PushedBy(w.store.history, w.sources, FromDDL)
            && CalledBy(w.calls, FromOther) == []
  {
    hide CalledBy, PushedBy, St.Wf, LP.LoopInv, Run;
    var w := Reach(s, acts, counter, start);
    assert CalledBy(w.calls, FromListener) + [] == CalledBy(w.calls, FromListener);
  }

  /** While the 64-bit counter does not wrap, the listener's events sit in the store with strictly
      increasing IDs. */
  lemma StoredIdsIncrease(s: St.State, acts: seq<Action>, counter: nat, start: nat)
    requires St.Wf(s) && s.capacity > 0 && counter < UINT64
    ensures var w := Reach(s, acts, counter, start);
            && |w.store.history| == |w.sources| && w.loop.seen <= |w.turns|
            && (counter + |LP.Offered(w.turns[..w.loop.seen], counter)| < UINT64 ==> LP.IdsIncrease(Forwarded(w)))
  {
    hide LP.Offered, Shuffle, Run, PushedBy, LP.LoopInv, HandOff;
    ForwarderDrain(s, acts, counter, start);
    var w := Reach(s, acts, counter, start);
    var offered := LP.Offered(w.turns[..w.loop.seen], counter);
    LP.OfferedIds(w.turns[..w.loop.seen], counter);
    LP.IdsIncreaseIff(w.turns[..w.loop.seen], counter);
    if UINT64 <= counter + |offered| {
      return;
    }
    forall j | 0 <= j < |offered| ensures offered[j].id < UINT64 {
    }
    var enqueued := Forwarded(w) + Held(w.pc) + w.loop.queue;
    LP.ShuffleIds(enqueued, w.loop.dropped, offered, UINT64);
    forall i | 0 <= i < |Forwarded(w)| ensures Forwarded(w)[i] == enqueued[i] {
    }
  }

  /** Stepping through a run. */
  lemma RunStep(w: World, acts: seq<Action>, a: Action, counter: nat, start: nat)
    requires RunnerInv(w, counter, start)
    ensures Run(w, acts + [a], counter, start) == Next(Run(w, acts, counter, start), a)
  {
    assert (acts + [a])[..|acts|] == acts;
  }

  /** Two more actions of a run. */
  lemma RunTwo(w: World, acts: seq<Action>, a: Action, b: Action, counter: nat, start: nat)
    requires RunnerInv(w, counter, start)
    ensures RunnerInv(Next(Run(w, acts, counter, start), a), counter, start)
    ensures Run(w, acts + [a, b], counter, start) == Next(Next(Run(w, acts, counter, start), a), b)
  {
    hide RunnerInv, Next;
    NextKeeps(Run(w, acts, counter, start), a, counter, start);
    RunStep(w, acts, a, counter, start);
    RunStep(w, acts + [a], b, counter, start);
    assert acts + [a, b] == acts + [a] + [b];
  }

  // ---- the order of the calls ----

  /** The onEvent calls the store's order asks for: one per push of the listener or of DDL tracking. */
  function CallsDue(history: seq<Event>, sources: seq<Source>): seq<Call>
    requires |history| == |sources|
  {
    if history == [] then []
    else
      var k := |history| - 1;
      CallsDue(history[..k], sources[..k]) + if sources[k] == FromOther then [] else [Call(sources[k], history[k])]
  }

  /** onEvent follows the store's order. */
  predicate InStoreOrder(w: World)
    requires |w.store.history| == |w.sources|
  {
    w.calls <= CallsDue(w.store.history, w.sources)
  }

  lemma CallsDuePush(w: World, source: Source, e: Event)
    requires StoreOk(w)
    ensures var r := PushInto(w, source, e);
            && |r.store.history| == |r.sources|
            && CallsDue(r.store.history, r.sources)
               == CallsDue(w.store.history, w.sources) + if source == FromOther then [] else [Call(source, e)]
  {
    hide CallsDue, PushedBy, PushInto, St.Wf;
    PushFacts(w, source, e);
    CallsDueAppend(w.store.history, w.sources, e, source);
  }

  lemma CallsDueAppend(history: seq<Event>, sources: seq<Source>, e: Event, source: Source)
    requires |history| == |sources|
    ensures CallsDue(history + [e], sources + [source])
            == CallsDue(history, sources) + if source == FromOther then [] else [Call(source, e)]
  {
    assert (history + [e])[..|history|] == history && (sources + [source])[..|sources|] == sources;
  }

  /** No DDL item is waiting to be announced, and the forwarder is at most one call behind. */
  ghost predicate OneBehind(w: World)
    requires |w.store.history| == |w.sources|
  {
    && w.ddl == None
    && w.calls + (if w.pc.Notifying? then [Call(FromListener, w.pc.e)] else [])
       == CallsDue(w.store.history, w.sources)
  }

  lemma ForwarderOneBehind(w: World, a: Action)
    requires StoreOk(w) && OneBehind(w) && OfForwarder(a)
    ensures var r := ForwarderStep(w, a); |r.store.history| == |r.sources| && OneBehind(r)
  {
    assert w.calls + [] == w.calls;
    if a.Forward? && w.pc.Pushing? {
      PushFacts(w, FromListener, w.pc.e);
      CallsDuePush(w, FromListener, w.pc.e);
      hide CallsDue, PushedBy, PushInto, StoreOk;
    } else {
      assert ForwarderStep(w, a).calls + [] == ForwarderStep(w, a).calls;
      hide CallsDue, PushedBy, PushInto;
    }
  }

  lemma NextOneBehind(w: World, a: Action)
    requires StoreOk(w) && OneBehind(w) && !a.DDLPush?
    ensures var r := Next(w, a); |r.store.history| == |r.sources| && OneBehind(r)
  {
    if OfForwarder(a) {
      ForwarderOneBehind(w, a);
      hide CallsDue, PushedBy, PushInto, ForwarderStep, StoreOk, OneBehind;
    } else if a.OtherPush? {
      PushFacts(w, FromOther, a.e);
      CallsDuePush(w, FromOther, a.e);
      hide CallsDue, PushedBy, PushInto, StoreOk;
    } else if a.Subscriber? && !a.op.Push? {
      SubscriberFacts(w, a.op);
      hide CallsDue, StoreOk;
    } else {
      hide CallsDue, PushInto, StoreOk, L.Iterate;
    }
  }

  lemma {:induction false} NothingDue(history: seq<Event>, sources: seq<Source>)
    requires |history| == |sources| && forall i :: 0 <= i < |sources| ==> sources[i] == FromOther
    ensures CallsDue(history, sources) == []
    decreases |history|
  {
    if history != [] {
      NothingDue(history[..|history| - 1], sources[..|history| - 1]);
    }
  }

  lemma {:induction false} RunOneBehind(w: World, acts: seq<Action>, counter: nat, start: nat)
    requires RunnerInv(w, counter, start) && OneBehind(w)
    requires forall i :: 0 <= i < |acts| ==> !acts[i].DDLPush?
    ensures OneBehind(Run(w, acts, counter, start))
    decreases |acts|
  {
    hide Next, OneBehind, HandOff, Ending, LP.LoopInv;
    if acts != [] {
      var k := |acts| - 1;
      RunOneBehind(w, acts[..k], counter, start);
      NextOneBehind(Run(w, acts[..k], counter, start), acts[k]);
    }
  }

  /** Without DDL tracking every call is the listener's and onEvent follows the store's order, whatever
      else is pushed. */
  lemma CallsInStoreOrder(s: St.State, acts: seq<Action>, counter: nat, start: nat)
    requires St.Wf(s) && s.capacity > 0 && counter < UINT64
    requires forall i :: 0 <= i < |acts| ==> !acts[i].DDLPush?
    ensures var w := Reach(s, acts, counter, start);
            && |w.store.history| == |w.sources| && InStoreOrder(w)
            && |CallsDue(w.store.history, w.sources)| <= |w.calls| + 1
            && (w.returned ==> w.calls == CallsDue(w.store.history, w.sources))
  {
    hide Run, LP.LoopInv, HandOff, CallsDue, St.Wf;
    StartInv(s, counter, start);
    var w0 := Start(s, counter, start);
    NothingDue(s.history, w0.sources);
    RunOneBehind(w0, acts, counter, start);
    var w := Reach(s, acts, counter, start);
    assert w.calls + [] == w.calls;
  }

  lemma {:induction false} DueBySource(history: seq<Event>, sources: seq<Source>)
    requires |history| == |sources|
    ensures |CallsDue(history, sources)|
            == |PushedBy(history, sources, FromListener)| + |PushedBy(history, sources, FromDDL)|
    decreases |history|
  {
    if history != [] {
      DueBySource(history[..|history| - 1], sources[..|history| - 1]);
    }
  }

  lemma {:induction false} CallsBySource(calls: seq<Call>)
    ensures |calls| == |CalledBy(calls, FromListener)| + |CalledBy(calls, FromDDL)| + |CalledBy(calls, FromOther)|
    decreases |calls|
  {
    if calls != [] {
      CallsBySource(calls[..|calls| - 1]);
    }
  }

  lemma NotifyingIsBehind(w: World)
    requires |w.store.history| == |w.sources| && HandOff(w)
    requires w.pc.Notifying? && w.ddl == None
    ensures |CallsDue(w.store.history, w.sources)| == |w.calls| + 1
  {
    hide CallsDue, PushedBy, CalledBy;
    DueBySource(w.store.history, w.sources);
    CallsBySource(w.calls);
  }

  /** The three actions by which a DDL item overtakes the event being announced. */
  lemma OvertakeSteps(w: World, d: Event)
    requires StoreOk(w) && HandOff(w) && w.pc.Notifying? && w.ddl == None
    ensures StoreOk(Next(w, DDLPush(d))) && StoreOk(Next(Next(w, DDLPush(d)), DDLNotify))
    ensures var r := Next(Next(Next(w, DDLPush(d)), DDLNotify), Notify);
            && r.sources == w.sources + [FromDDL] && r.store.history == w.store.history + [d]
            && r.calls == w.calls + [Call(FromDDL, d), Call(FromListener, w.pc.e)]
            && |r.store.history| == |r.sources| && !InStoreOrder(r)
  {
    NotifyingIsBehind(w);
    PushFacts(w, FromDDL, d);
    CallsDuePush(w, FromDDL, d);
    hide CallsDue, PushedBy, CalledBy, PushInto, HandOff, St.Wf;
    var x := Next(w, DDLPush(d));
    assert x == PushInto(w, FromDDL, d).(ddl := Some(d));
    var r := Next(Next(x, DDLNotify), Notify);
    assert r.calls == w.calls + [Call(FromDDL, d)] + [Call(FromListener, w.pc.e)];
    var due := CallsDue(r.store.history, r.sources);
    assert due[|due| - 1] == Call(FromDDL, d) && r.calls[|due| - 1] == Call(FromListener, w.pc.e);
  }

  /** With DDL tracking the order fails from every state in which an event has been pushed and not yet
      announced: a DDL item pushed then can be announced first. */
  lemma DDLCanOvertake(s: St.State, acts: seq<Action>, d: Event, counter: nat, start: nat)
    requires St.Wf(s) && s.capacity > 0 && counter < UINT64
    ensures var w := Reach(s, acts, counter, start);
            w.pc.Notifying? && w.ddl == None ==>
            var r := Reach(s, acts + [DDLPush(d), DDLNotify] + [Notify], counter, start);
            && r.sources == w.sources + [FromDDL] && r.store.history == w.store.history + [d]
            && r.calls == w.calls + [Call(FromDDL, d), Call(FromListener, w.pc.e)]
            && |r.store.history| == |r.sources| && !InStoreOrder(r)
  {
    hide Run, Next, LP.LoopInv, HandOff, St.Wf, InStoreOrder;
    StartInv(s, counter, start);
    var w0 := Start(s, counter, start);
    var w := Reach(s, acts, counter, start);
    if w.pc.Notifying? && w.ddl == None {
      OvertakeSteps(w, d);
      RunTwo(w0, acts, DDLPush(d), DDLNotify, counter, start);
      RunStep(w0, acts + [DDLPush(d), DDLNotify], Notify, counter, start);
    }
  }

  // ---- what cancellation can lose ----

  /** From every state in which the forwarder waits at its select and an event is queued, cancellation
      can make Run return with the whole queue left behind. ForwarderDrain is the converse: without
      cancellation nothing is. */
  lemma CancelLosesQueue(s: St.State, acts: seq<Action>, counter: nat, start: nat)
    requires St.Wf(s) && s.capacity > 0 && counter < UINT64
    ensures var w := Reach(s, acts, counter, start);
            w.pc == Selecting && w.loop.queue != [] ==>
            var r := Reach(s, acts + [Cancel, QuitOnDone] + [ListenerReturns, Return], counter, start);
            && r.returned && r.cancelled
            && r.store == w.store && r.sources == w.sources && r.loop == w.loop
  {
    hide Run, LP.LoopInv, HandOff, St.Wf, PushInto, L.Iterate, L.Drain;
    StartInv(s, counter, start);
    var w0 := Start(s, counter, start);
    var w := Reach(s, acts, counter, start);
    if w.pc == Selecting && w.loop.queue != [] {
      RunTwo(w0, acts, Cancel, QuitOnDone, counter, start);
      var x := Run(w0, acts + [Cancel, QuitOnDone], counter, start);
      assert x == w.(cancelled := true, pc := Exited);
      RunTwo(w0, acts + [Cancel, QuitOnDone], ListenerReturns, Return, counter, start);
    }
  }

  // ---- instances ----

  const REL: L.Message := L.Relation(1, "public", "t", [])
  const INSERT: L.Message := L.InsertMessage(1, L.NoTuple)

  function Wal(m: L.Message): Action {
    Turn(L.Turn(false, true, true, 0, L.XLog(1, Some(m))))
  }

  /** The listener on a relation and an insert, with room in the channel. */
  lemma RelationThenInsert(t: L.Turn, u: L.Turn)
    requires t == Wal(REL).t && u == Wal(INSERT).t
    ensures var s := L.Iterate(L.Iterate(L.Start(0, 0), t, 2), u, 2);
            s.status == L.Running && |s.queue| == 1 && s.dropped == []
  {
    hide L.MetaOf, L.EventOf;
    var s := L.Iterate(L.Start(0, 0), t, 2);
    assert s == L.Start(0, 0).(cache := s.cache, pos := 1, seen := 1) && 1 in s.cache;
    assert L.Drain(s, 0) == s;
  }

  /** After a relation and an insert one event waits in the channel. */
  lemma OneQueued()
    ensures var w := Reach(St.Init(2), [Wal(REL)] + [Wal(INSERT)], 0, 0);
            && w.loop.status == L.Running && |w.loop.queue| == 1 && w.loop.dropped == []
            && w == Start(St.Init(2), 0, 0).(loop := w.loop, turns := w.turns)
  {
    hide RunnerInv, L.Iterate;
    StartInv(St.Init(2), 0, 0);
    RelationThenInsert(Wal(REL).t, Wal(INSERT).t);
    var w0 := Start(St.Init(2), 0, 0);
    RunStep(w0, [], Wal(REL), 0, 0);
    RunStep(w0, [Wal(REL)], Wal(INSERT), 0, 0);
    assert [] + [Wal(REL)] == [Wal(REL)];
  }

  /** Under cancellation the drain can fail: an enqueued event that Run leaves behind in the channel. */
  lemma CancelLosesEvents()
    ensures var acts := [Wal(REL)] + [Wal(INSERT)] + [Cancel, QuitOnDone] + [ListenerReturns, Return];
            var w := Reach(St.Init(2), acts, 0, 0);
            w.returned && w.cancelled && w.store.history == [] && |w.loop.queue| == 1 && w.loop.dropped == []
  {
    hide RunnerInv, Run, L.Iterate, Next;
    OneQueued();
    CancelLosesQueue(St.Init(2), [Wal(REL)] + [Wal(INSERT)], 0, 0);
  }

  /** Across sources onEvent need not follow the store's order: an event pushed first can be announced
      second. */
  lemma CallsCanReorder(d: Event)
    ensures var acts := [Wal(REL)] + [Wal(INSERT)] + [Take, Forward] + [DDLPush(d), DDLNotify] + [Notify];
            var w := Reach(St.Init(2), acts, 0, 0);
            && w.sources == [FromListener, FromDDL] && |w.calls| == 2
            && w.calls[0].source == FromDDL && w.calls[1].source == FromListener
  {
    hide RunnerInv, Run, L.Iterate;
    StartInv(St.Init(2), 0, 0);
    OneQueued();
    var acts := [Wal(REL)] + [Wal(INSERT)];
    RunTwo(Start(St.Init(2), 0, 0), acts, Take, Forward, 0, 0);
    var w := Reach(St.Init(2), acts + [Take, Forward], 0, 0);
    assert w.pc.Notifying? && w.ddl == None && w.sources == [FromListener] && w.calls == [];
    hide Next, Start;
    DDLCanOvertake(St.Init(2), acts + [Take, Forward], d, 0, 0);
  }
}
