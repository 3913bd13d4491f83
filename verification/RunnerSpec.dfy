/** core.Run as a transition system: the listener, the forwarder goroutine, the DDL goroutine, other
    pushers and subscribers take atomic steps in any order (internal/core/runner.go). One buffer
    size is both the capacity of the store and of the channel between listener and forwarder. */
module RunnerSpec {
  import opened Seqs
  import opened Events
  import L = ListenerSpec
  import St = StoreSpec

  datatype Source = FromListener | FromDDL | FromOther

  /** Where the forwarder is: in its select, holding an event for the store, about to call onEvent, or gone. */
  datatype Pc = Selecting | Pushing(e: Event) | Notifying(e: Event) | Exited

  datatype Call = Call(source: Source, e: Event)

  /** `loop.queue` is the channel between listener and forwarder and `loop.taken` what was received
      from it; `sources` says who pushed each history position; `calls` are the onEvent calls. */
  datatype World = World(
    loop: L.Loop, turns: seq<L.Turn>, stopped: bool, cancelled: bool, pc: Pc, ddl: Option<Event>,
    store: St.State, sources: seq<Source>, calls: seq<Call>, returned: bool)

  datatype Action =
    | Turn(t: L.Turn)          // the listener handles one more received message
    | ListenerReturns          // Start returns and Run closes the channel
    | Cancel                   // the context is cancelled
    | Take                     // the forwarder receives an event
    | Forward | Notify         // it pushes the event, then calls onEvent
    | QuitOnDone               // its select takes the ctx.Done case
    | QuitOnClose              // its receive finds the channel closed and empty
    | DDLPush(e: Event) | DDLNotify
    | OtherPush(e: Event)      // the marker API
    | Subscriber(op: St.Op)
    | Return                   // Run returns

  function Start(s: St.State, counter: nat, startLSN: nat): World {
    World(L.Start(counter, startLSN), [], false, false, Selecting, None, s, seq(|s.history|, _ => FromOther), [], false)
  }

  function PushInto(w: World, source: Source, e: Event): World
    requires St.Registered(w.store.chans, w.store.subs)
  {
    match St.Step(w.store, St.Push(e))
    case Ok(s) => w.(store := s, sources := w.sources + [source])
    case Panic => w
  }

  function ListenerStep(w: World, a: Action): World
    requires a.Turn? || a.ListenerReturns?
  {
    if w.stopped then w
    else
      match a
      case Turn(t) =>
        var u := t.(drained := 0);
        w.(loop := L.Iterate(w.loop, u, w.store.capacity), turns := w.turns + [u])
      case ListenerReturns => w.(stopped := true)
  }

  predicate OfForwarder(a: Action) {
    a.Take? || a.Forward? || a.Notify? || a.QuitOnDone? || a.QuitOnClose?
  }

  function ForwarderStep(w: World, a: Action): World
    requires OfForwarder(a) && St.Registered(w.store.chans, w.store.subs)
  {
    match a
    case Take =>
      if w.pc == Selecting && w.loop.queue != []
      then w.(pc := Pushing(w.loop.queue[0]), loop := L.Drain(w.loop, 1)) else w
    case Forward => if w.pc.Pushing? then PushInto(w, FromListener, w.pc.e).(pc := Notifying(w.pc.e)) else w
    case Notify =>
      if w.pc.Notifying? then w.(pc := Selecting, calls := w.calls + [Call(FromListener, w.pc.e)]) else w
    case QuitOnDone => if w.pc == Selecting && w.cancelled then w.(pc := Exited) else w
    case QuitOnClose => if w.pc == Selecting && w.stopped && w.loop.queue == [] then w.(pc := Exited) else w
  }

  function Next(w: World, a: Action): World
    requires St.Registered(w.store.chans, w.store.subs)
  {
    if a.Turn? || a.ListenerReturns? then ListenerStep(w, a)
    else if OfForwarder(a) then ForwarderStep(w, a)
    else
      match a
      case Cancel => w.(cancelled := true)
      case DDLPush(e) => if w.ddl == None then PushInto(w, FromDDL, e).(ddl := Some(e)) else w
      case DDLNotify =>
        if w.ddl.Some? then w.(ddl := None, calls := w.calls + [Call(FromDDL, w.ddl.value)]) else w
      case OtherPush(e) => PushInto(w, FromOther, e)
      case Subscriber(op) =>
        (if op.Push? then w
         else match St.Step(w.store, op) case Ok(s) => w.(store := s) case Panic => w)
      case Return => if w.stopped && w.pc == Exited then w.(returned := true) else w
  }

  // ---- what a run is judged by ----

  /** The events that one source pushed, in history order. */
  function PushedBy(history: seq<Event>, sources: seq<Source>, source: Source): seq<Event>
    requires |history| == |sources|
  {
    if history == [] then []
    else
      var k := |history| - 1;
      PushedBy(history[..k], sources[..k], source) + if sources[k] == source then [history[k]] else []
  }

  function CalledBy(calls: seq<Call>, source: Source): seq<Event> {
    if calls == [] then []
    else
      var k := |calls| - 1;
      CalledBy(calls[..k], source) + if calls[k].source == source then [calls[k].e] else []
  }

  /** Received from the channel and not yet pushed. */
  function Held(pc: Pc): seq<Event> {
    if pc.Pushing? then [pc.e] else []
  }

  function Unannounced(pc: Pc): seq<Event> {
    if pc.Notifying? then [pc.e] else []
  }
}
