/** That core.Run does its work: what a listener turn and a push do, and that the hand-off can always be
    completed. */
module RunnerLaws {
  import opened Seqs
  import opened Events
  import opened RunnerSpec
  import opened RunnerProps
  import L = ListenerSpec
  import LP = ListenerProps
  import LL = ListenerLaws
  import St = StoreSpec
  import SP = StoreProps

  // ---- single actions ----

  lemma RunningCache(s: L.Loop, ts: seq<L.Turn>, counter: nat, start: nat)
    requires LP.LoopInv(s, ts, counter, start) && s.status == L.Running
    ensures LP.CacheIsLatest(s.cache, ts)
  {
    assert ts[..s.seen] == ts;
  }

  /** While the listener runs, a change of a relation it has seen described is enqueued for the forwarder,
      unless the channel holds as many events as the store has slots: then it is dropped. */
  lemma TurnEmits(w: World, t: L.Turn, counter: nat, start: nat, k: nat)
    requires RunnerInv(w, counter, start) && !w.stopped && w.loop.status == L.Running && (t.due ==> t.dueSent)
    requires t.raw.XLog? && t.raw.msg.Some? && LL.IsChange(t.raw.msg.value)
    requires LL.DescribedAt(w.turns, t.raw.msg.value.oid, k)
    ensures var r := Next(w, Turn(t));
            && r == w.(loop := r.loop, turns := r.turns)
            && exists e ::
                 && LL.Describes(e, t.raw.msg.value, w.turns[k].raw.msg.value, t.raw.walStart)
                 && if |w.loop.queue| < w.store.capacity
                    then r.loop.taken + r.loop.queue == w.loop.taken + w.loop.queue + [e] && r.loop.dropped == w.loop.dropped
                    else r.loop.taken + r.loop.queue == w.loop.taken + w.loop.queue && r.loop.dropped == w.loop.dropped + [e]
  {
    hide LP.Tracks, LP.AcksTrack, LL.Describes, L.Iterate, HandOff;
    RunningCache(w.loop, w.turns, counter, start);
    LL.IterateChange(w.loop, w.turns, t.(drained := 0), w.store.capacity, k);
  }

  /** Somebody else's push enters the history at once, under their name. */
  lemma OthersPush(w: World, e: Event)
    requires StoreOk(w)
    ensures var r := Next(w, OtherPush(e));
            && r == w.(store := r.store, sources := r.sources)
            && r.store.history == w.store.history + [e] && r.sources == w.sources + [FromOther]
    ensures w.ddl == None ==>
              var r := Next(w, DDLPush(e));
              && r == w.(store := r.store, sources := r.sources, ddl := Some(e))
              && r.store.history == w.store.history + [e] && r.sources == w.sources + [FromDDL]
  {
    hide PushInto, PushedBy, St.Wf;
    PushFacts(w, FromOther, e);
    PushFacts(w, FromDDL, e);
  }

  /** Subscribers use the store as if nobody else did. */
  lemma SubscribersAct(w: World, op: St.Op)
    requires StoreOk(w) && !op.Push?
    ensures St.Step(w.store, op) == St.Ok(Next(w, Subscriber(op)).store)
  {
    St.StepKeepsWf(w.store, op);
    hide St.Step;
  }

  // ---- the drain ----

  /** What the forwarder needs to get back to its select. */
  function Finish(pc: Pc): seq<Action> {
    match pc
    case Pushing(_) => [Forward] + [Notify]
    case Notifying(_) => [Notify]
    case _ => []
  }

  function Rounds(n: nat): seq<Action> {
    if n == 0 then [] else Rounds(n - 1) + [Take] + [Forward] + [Notify]
  }

  lemma {:induction false} RoundsForward(n: nat)
    ensures forall i :: 0 <= i < |Rounds(n)| ==> OfForwarder(Rounds(n)[i])
    decreases n
  {
    if n > 0 {
      RoundsForward(n - 1);
    }
  }

  /** r is w with the events forwarded and announced, and nothing else changed but the way there. */
  ghost predicate Forwards(w: World, r: World, es: seq<Event>) {
    && r.pc == Selecting
    && r.stopped == w.stopped && r.cancelled == w.cancelled && r.returned == w.returned && r.turns == w.turns
    && r.loop.dropped == w.loop.dropped && r.loop.status == w.loop.status
    && |w.store.history| == |w.sources| && |r.store.history| == |r.sources|
    && Forwarded(r) == Forwarded(w) + es
  }

  lemma ForwardOne(w: World)
    requires StoreOk(w) && w.pc.Pushing?
    ensures var r := Next(w, Forward);
            && StoreOk(r) && r == w.(store := r.store, sources := r.sources, pc := Notifying(w.pc.e))
            && Forwarded(r) == Forwarded(w) + [w.pc.e]
  {
    hide PushInto, PushedBy, St.Wf;
    PushFacts(w, FromListener, w.pc.e);
  }

  lemma NotifyOne(w: World)
    requires StoreOk(w) && w.pc.Notifying?
    ensures var r := Next(w, Notify);
            StoreOk(r) && r == w.(pc := Selecting, calls := w.calls + [Call(FromListener, w.pc.e)])
  {
    hide PushInto;
  }

  lemma TakeOne(w: World)
    requires StoreOk(w) && w.pc == Selecting && w.loop.queue != []
    ensures var r := Next(w, Take);
            && StoreOk(r) && r == w.(pc := Pushing(w.loop.queue[0]), loop := r.loop)
            && r.loop == w.loop.(taken := r.loop.taken, queue := w.loop.queue[1..])
  {
    hide PushInto;
  }

  /** From a held event back to the select. */
  lemma PushAndNotify(w: World)
    requires StoreOk(w) && w.pc.Pushing?
    ensures StoreOk(Next(w, Forward))
    ensures var r := Next(Next(w, Forward), Notify);
            StoreOk(r) && Forwards(w, r, [w.pc.e]) && r.loop == w.loop
  {
    ForwardOne(w);
    var b := Next(w, Forward);
    NotifyOne(b);
    hide Next, Forwarded, St.Wf;
    SameForwarded(b, Next(b, Notify));
  }

  lemma JustNotify(w: World)
    requires StoreOk(w) && w.pc.Notifying?
    ensures var r := Next(w, Notify);
            StoreOk(r) && Forwards(w, r, []) && r.loop == w.loop
  {
    NotifyOne(w);
    hide Next, Forwarded, St.Wf;
    SameForwarded(w, Next(w, Notify));
    assert Forwarded(w) + [] == Forwarded(w);
  }

  lemma RoundOne(w: World)
    requires StoreOk(w) && w.pc == Selecting && w.loop.queue != []
    ensures StoreOk(Next(w, Take)) && StoreOk(Next(Next(w, Take), Forward))
    ensures var r := Next(Next(Next(w, Take), Forward), Notify);
            StoreOk(r) && Forwards(w, r, [w.loop.queue[0]]) && r.loop.queue == w.loop.queue[1..]
  {
    TakeOne(w);
    var a := Next(w, Take);
    PushAndNotify(a);
    hide Next, Forwarded, St.Wf;
    SameForwarded(w, a);
  }

  lemma ForwardsTwice(w: World, x: World, r: World, es: seq<Event>, fs: seq<Event>)
    requires Forwards(w, x, es) && Forwards(x, r, fs)
    ensures Forwards(w, r, es + fs)
  {
    hide Forwarded;
    assert Forwarded(w) + es + fs == Forwarded(w) + (es + fs);
  }

  lemma SameForwarded(w: World, a: World)
    requires a.store == w.store && a.sources == w.sources
    ensures |w.store.history| == |w.sources| ==> Forwarded(a) == Forwarded(w)
  {
  }

  lemma {:induction false} RunAppend(w: World, a: seq<Action>, b: seq<Action>, counter: nat, start: nat)
    requires RunnerInv(w, counter, start)
    ensures Run(w, a + b, counter, start) == Run(Run(w, a, counter, start), b, counter, start)
    decreases |b|
  {
    hide RunnerInv, Next;
    if b == [] {
      assert a + b == a;
    } else {
      var k := |b| - 1;
      RunAppend(w, a, b[..k], counter, start);
      assert (a + b)[..|a + b| - 1] == a + b[..k];
    }
  }

  lemma {:induction false} DrainRounds(w: World, n: nat, counter: nat, start: nat)
    requires RunnerInv(w, counter, start) && w.pc == Selecting && n <= |w.loop.queue|
    ensures var r := Run(w, Rounds(n), counter, start);
            && Forwards(w, r, w.loop.queue[..n]) && r.loop.queue == w.loop.queue[n..]
    decreases n
  {
    hide RunnerInv, Next, Forwards, StoreOk;
    if n == 0 {
      NoRounds(w, counter, start);
      assert w.loop.queue[..0] == [];
    } else {
      DrainRounds(w, n - 1, counter, start);
      var x := Run(w, Rounds(n - 1), counter, start);
      ForwardsSelect(w, x, w.loop.queue[..n - 1]);
      OneMoreRound(w, x, n, counter, start);
      var r := Run(w, Rounds(n), counter, start);
      assert w.loop.queue[..n] == w.loop.queue[..n - 1] + [w.loop.queue[n - 1]];
      ForwardsTwice(w, x, r, w.loop.queue[..n - 1], [w.loop.queue[n - 1]]);
    }
  }

  lemma NoRounds(w: World, counter: nat, start: nat)
    requires RunnerInv(w, counter, start) && w.pc == Selecting
    ensures Forwards(w, Run(w, Rounds(0), counter, start), [])
  {
    hide LP.LoopInv, HandOff, PushedBy;
    assert Forwarded(w) + [] == Forwarded(w);
  }

  lemma ForwardsSelect(w: World, x: World, es: seq<Event>)
    requires Forwards(w, x, es)
    ensures x.pc == Selecting
  {
    hide Forwarded;
  }

  lemma OneMoreRound(w: World, x: World, n: nat, counter: nat, start: nat)
    requires RunnerInv(w, counter, start) && 0 < n && x == Run(w, Rounds(n - 1), counter, start)
    requires x.pc == Selecting && x.loop.queue != []
    ensures var r := Run(w, Rounds(n), counter, start);
            Forwards(x, r, [x.loop.queue[0]]) && r.loop.queue == x.loop.queue[1..]
  {
    hide RunnerInv, Next, Forwards, StoreOk;
    InvStore(x, counter, start);
    RoundOne(x);
    RunStep(w, Rounds(n - 1), Take, counter, start);
    RunStep(w, Rounds(n - 1) + [Take], Forward, counter, start);
    RunStep(w, Rounds(n - 1) + [Take] + [Forward], Notify, counter, start);
  }

  lemma InvStore(w: World, counter: nat, start: nat)
    requires RunnerInv(w, counter, start)
    ensures StoreOk(w)
  {
  }

  lemma FinishRound(w: World, counter: nat, start: nat)
    requires RunnerInv(w, counter, start) && w.pc != Exited
    ensures var r := Run(w, Finish(w.pc), counter, start);
            Forwards(w, r, Held(w.pc)) && r.loop == w.loop
  {
    hide RunnerInv, Next, Forwards, StoreOk;
    InvStore(w, counter, start);
    if w.pc.Pushing? {
      PushAndNotify(w);
      RunStep(w, [], Forward, counter, start);
      RunStep(w, [Forward], Notify, counter, start);
      assert [] + [Forward] == [Forward];
    } else if w.pc.Notifying? {
      JustNotify(w);
      RunStep(w, [], Notify, counter, start);
      assert [] + [Notify] == [Notify];
    } else {
      NoRounds(w, counter, start);
    }
  }

  lemma IdleIsAnnounced(w: World, counter: nat, start: nat)
    requires RunnerInv(w, counter, start) && w.pc == Selecting
    ensures |w.store.history| == |w.sources| && CalledBy(w.calls, FromListener) == Forwarded(w)
  {
    hide LP.LoopInv, CalledBy, PushedBy;
    assert CalledBy(w.calls, FromListener) + [] == CalledBy(w.calls, FromListener);
  }

  lemma Drains(w: World, counter: nat, start: nat)
    requires RunnerInv(w, counter, start) && w.pc != Exited
    ensures var r := Run(w, Finish(w.pc) + Rounds(|w.loop.queue|), counter, start);
            Forwards(w, r, Held(w.pc) + w.loop.queue) && r.loop.queue == []
  {
    hide RunnerInv, Next, StoreOk, Run, Forwarded;
    var x := Run(w, Finish(w.pc), counter, start);
    var n := |w.loop.queue|;
    FinishRound(w, counter, start);
    DrainRounds(x, n, counter, start);
    RunAppend(w, Finish(w.pc), Rounds(n), counter, start);
    assert w.loop.queue[..n] == w.loop.queue && w.loop.queue[n..] == [];
    ForwardsTwice(w, x, Run(x, Rounds(n), counter, start), Held(w.pc), w.loop.queue);
  }

  lemma OnlyForwarder(pc: Pc, n: nat)
    ensures forall i :: 0 <= i < |Finish(pc) + Rounds(n)| ==> OfForwarder((Finish(pc) + Rounds(n))[i])
  {
    RoundsForward(n);
    hide Rounds;
  }

  /** As long as the forwarder has not quit, its own actions suffice to push and announce everything
      enqueued so far, in order. */
  lemma DrainCompletes(s: St.State, acts: seq<Action>, counter: nat, start: nat)
    requires St.Wf(s) && s.capacity > 0 && counter < UINT64
    ensures var w := Reach(s, acts, counter, start);
            w.pc != Exited ==>
            var more := Finish(w.pc) + Rounds(|w.loop.queue|);
            && (forall i :: 0 <= i < |more| ==> OfForwarder(more[i]))
            && var r := Reach(s, acts + more, counter, start);
               && Forwards(w, r, Held(w.pc) + w.loop.queue) && r.loop.queue == []
               && CalledBy(r.calls, FromListener) == Forwarded(r)
  {
    hide RunnerInv, Next, Run, Forwarded, CalledBy, Rounds, Finish, OfForwarder;
    StartInv(s, counter, start);
    var w := Reach(s, acts, counter, start);
    if w.pc != Exited {
      var more := Finish(w.pc) + Rounds(|w.loop.queue|);
      OnlyForwarder(w.pc, |w.loop.queue|);
      Drains(w, counter, start);
      RunAppend(Start(s, counter, start), acts, more, counter, start);
      IdleIsAnnounced(Reach(s, acts + more, counter, start), counter, start);
    }
  }

  /** And then Run returns when the listener does. */
  lemma RunReturns(s: St.State, acts: seq<Action>, counter: nat, start: nat)
    requires St.Wf(s) && s.capacity > 0 && counter < UINT64
    ensures var w := Reach(s, acts, counter, start);
            w.pc == Selecting && w.loop.queue == [] ==>
              Reach(s, acts + [ListenerReturns, QuitOnClose] + [Return], counter, start)
              == w.(stopped := true, pc := Exited, returned := true)
  {
    hide Run, LP.LoopInv, HandOff, St.Wf, PushInto, L.Iterate, L.Drain;
    StartInv(s, counter, start);
    var w0 := Start(s, counter, start);
    var w := Reach(s, acts, counter, start);
    if w.pc == Selecting && w.loop.queue == [] {
      RunTwo(w0, acts, ListenerReturns, QuitOnClose, counter, start);
      RunStep(w0, acts + [ListenerReturns, QuitOnClose], Return, counter, start);
    }
  }
}
