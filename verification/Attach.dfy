/** The attach protocol as an interleaving: the daemon's store with any other users, every
    connection's handler, pump, stats ticker and wire (internal/ipc/server.go), its client
    (internal/ipc/client.go) and the re-push into the client's own store (cmd/dbwatch/main.go).
    An action whose guard is false changes nothing, so a run is any sequence of actions. */
module Attach {
  import opened Seqs
  import Ev = Events
  import St = StoreSpec
  import opened ClientSpec

  type Item = nat   // a position of the daemon's push history
  type Wire = seq<Envelope<Item>>

  /** Where a connection's handler stands. Leaving is past stop(), Uncounted past Add(-1). */
  datatype Pc = Fresh | Counted | Greeted | Snapped | Sent | Streaming | Returning | Unsubscribed | Leaving | Uncounted | Gone

  /** The daemon's side: handler, pump and ticker goroutines of one connection. */
  datatype Server = Server(
    pc: Pc,
    items: seq<Item>, snapAt: nat,     // the snapshot taken, and the history length then
    sub: Option<nat>,                  // the subscription, once made
    stopped: bool, pumpOn: bool, tickOn: bool, hand: Option<Item>,
    broken: bool, lost: seq<Item>)     // a failed write, and the items it took with it

  /** The client's side: how much of the wire it decoded, and runAttach's progress. */
  datatype Peer = Peer(read: nat, client: Client<Item>, replay: nat, detached: bool, pushed: seq<Item>)

  datatype Conn = Conn(srv: Server, wire: Wire, peer: Peer)

  /** The server's options that go into the hello message. */
  datatype Options = Options(version: string, db: string)

  /** Crashed is a run-time panic of the daemon inside a store operation. */
  datatype World = World(store: St.State, clients: int, conns: seq<Conn>) | Crashed

  datatype Request = PingReq | SubscribeReq | OtherReq

  datatype Action =
    | CountIn | SendHello(ok: bool) | TakeSnapshot | SendSnapshot(ok: bool) | SubscribeAll
    | PumpTake | PumpSend(ok: bool) | PumpExit | Tick(ok: bool) | TickExit | Reply(req: Request, ok: bool)
    | Return | Unsubscribe | StopPump | CountOut | Close
    | ClientRead | ClientError | PushSnapshot | PushEvent | Detach

  /** Accept starts a handler, On(i, a) moves connection i, Env is any other user of the store:
      listeners, marker API, local subscribers. */
  datatype Move = Accept | On(i: nat, a: Action) | Env(op: St.Op)

  const FRESH: Conn := Conn(
    Server(Fresh, [], 0, None, false, false, false, None, false, []), [], Peer(0, Connected(), 0, false, []))

  function Lowest(s: St.State): nat {
    Max(0, |s.history| - s.capacity)
  }

  /** send writes a whole envelope or fails; bufio makes the first failure permanent. */
  predicate Sends(v: Server, ok: bool) { ok && !v.broken && v.pc != Gone }

  /** The envelope a server step sends, the server after it, and the store operation done in the
      same atomic step. */
  datatype Effect = Effect(srv: Server, out: Option<Envelope<Item>>, op: Option<St.Op>)

  function Stay(v: Server): Effect { Effect(v, None, None) }

  function StatsReply(s: St.State, clients: int): Envelope<Item> {
    StatsMsg(Stats(|s.history|, clients, Min(|s.history|, s.capacity)))
  }

  /** The queue of the connection's subscription. */
  function Queue(s: St.State, v: Server): seq<Item> {
    if v.sub.Some? && v.sub.value < |s.chans| then s.chans[v.sub.value].queue else []
  }

  predicate ChanClosed(s: St.State, v: Server) {
    v.sub.Some? && v.sub.value < |s.chans| && s.chans[v.sub.value].closedAt.Some?
  }

  /** The handler goroutine, statement by statement. Once a send fails or the loop returns, the
      deferred calls run last to first: Unsubscribe, stop, Add(-1), Close. */
  function Handler(o: Options, s: St.State, clients: int, v: Server, a: Action): Effect {
    match a
    case CountIn => Stay(if v.pc == Fresh then v.(pc := Counted) else v)
    case SendHello(ok) =>
      if v.pc != Counted then Stay(v)
      else if Sends(v, ok) then Effect(v.(pc := Greeted), Some(Hello(o.version, o.db)), None)
      else Stay(v.(pc := Leaving, broken := true))
    case TakeSnapshot =>
      if v.pc != Greeted then Stay(v)
      else Stay(v.(pc := Snapped, items := Range(Lowest(s), |s.history|), snapAt := |s.history|))
    case SendSnapshot(ok) =>
      if v.pc != Snapped then Stay(v)
      else if Sends(v, ok) then Effect(v.(pc := Sent), Some(Snapshot(v.items)), None)
      else Stay(v.(pc := Leaving, broken := true, lost := v.lost + v.items))
    case SubscribeAll =>
      if v.pc != Sent then Stay(v)
      else Effect(v.(pc := Streaming, sub := Some(|s.chans|), pumpOn := true, tickOn := true),
                  None, Some(St.Subscribe(Ev.AllowAll)))
    case Reply(req, ok) =>
      if v.pc != Streaming || req.OtherReq? then Stay(v)
      else if Sends(v, ok) then Effect(v, Some(if req.PingReq? then StatsReply(s, clients) else Pong), None)
      else Stay(v.(pc := Returning, broken := true))
    case Return => Stay(if v.pc == Streaming then v.(pc := Returning) else v)
    case Unsubscribe =>
      if v.pc != Returning || v.sub.None? then Stay(v)
      else Effect(v.(pc := Unsubscribed), None, Some(St.Unsubscribe(v.sub.value)))
    case StopPump => Stay(if v.pc == Unsubscribed then v.(pc := Leaving, stopped := true) else v)
    case CountOut => Stay(if v.pc == Leaving then v.(pc := Uncounted) else v)
    case Close => Stay(if v.pc == Uncounted then v.(pc := Gone) else v)
    case _ => Stay(v)
  }

  /** The two goroutines beside the handler: the pump and the stats ticker. */
  function Helpers(s: St.State, clients: int, v: Server, a: Action): Effect {
    match a
    case PumpTake =>
      if !v.pumpOn || v.hand.Some? || v.sub.None? || Queue(s, v) == [] then Stay(v)
      else Effect(v.(hand := Some(Queue(s, v)[0])), None, Some(St.Receive(v.sub.value)))
    case PumpSend(ok) =>
      if !v.pumpOn || v.hand.None? then Stay(v)
      else if Sends(v, ok) then Effect(v.(hand := None), Some(EventMsg(v.hand.value)), None)
      else Stay(v.(hand := None, lost := v.lost + [v.hand.value], broken := true, stopped := true, pumpOn := false))
    case PumpExit =>
      Stay(if v.pumpOn && v.hand.None? && (v.stopped || (Queue(s, v) == [] && ChanClosed(s, v)))
           then v.(pumpOn := false) else v)
    case Tick(ok) =>
      if !v.tickOn then Stay(v)
      else if Sends(v, ok) then Effect(v, Some(StatsReply(s, clients)), None)
      else Stay(v.(broken := true, stopped := true, tickOn := false))
    case TickExit => Stay(if v.stopped then v.(tickOn := false) else v)
    case _ => Stay(v)
  }

  /** Dial, readLoop and the push loops of runAttach. A read error ends the client at any time. */
  function ClientSide(wire: Wire, q: Peer, a: Action): Peer {
    match a
    case ClientRead =>
      if q.read < |wire| && !q.client.phase.Refused? && !q.client.phase.Ended?
      then q.(client := Read(q.client, wire[q.read]), read := q.read + 1) else q
    case ClientError => q.(client := q.client.(phase := Ended))
    case PushSnapshot =>
      if q.replay < |q.client.snapshot|
      then q.(pushed := q.pushed + [q.client.snapshot[q.replay]], replay := q.replay + 1) else q
    case PushEvent =>
      if !q.detached && q.replay == |q.client.snapshot| && q.client.events != []
      then q.(pushed := q.pushed + [q.client.events[0]],
              client := q.client.(events := q.client.events[1..])) else q
    case Detach => q.(detached := true)
    case _ => q
  }

  predicate OfClient(a: Action) {
    a.ClientRead? || a.ClientError? || a.PushSnapshot? || a.PushEvent? || a.Detach?
  }

  function ServerStep(o: Options, s: St.State, clients: int, v: Server, a: Action): Effect {
    if a.PumpTake? || a.PumpSend? || a.PumpExit? || a.Tick? || a.TickExit? then Helpers(s, clients, v, a)
    else Handler(o, s, clients, v, a)
  }

  function Append(wire: Wire, out: Option<Envelope<Item>>): Wire {
    if out.Some? then wire + [out.value] else wire
  }

  /** clients.Add(1) happens on entering the handler, clients.Add(-1) in its deferred calls. */
  function Counts(v: Server, a: Action): int {
    if a.CountIn? && v.pc == Fresh then 1
    else if a.CountOut? && v.pc == Leaving then -1
    else 0
  }

  /** Another user may do anything to the store except read or close a connection's channel. */
  predicate EnvMay(w: World, op: St.Op)
    requires w.World?
  {
    op.Push? || op.Subscribe? || forall i :: 0 <= i < |w.conns| ==> w.conns[i].srv.sub != Some(op.id)
  }

  function ApplyOp(w: World, op: Option<St.Op>): World
    requires w.World? && St.Registered(w.store.chans, w.store.subs)
  {
    if op.None? then w
    else
      match St.Step(w.store, op.value)
      case Ok(s) => w.(store := s)
      case Panic => Crashed
  }

  function ConnMove(o: Options, w: World, i: nat, a: Action): World
    requires w.World? && i < |w.conns| && St.Registered(w.store.chans, w.store.subs)
  {
    var c := w.conns[i];
    if OfClient(a) then w.(conns := w.conns[i := c.(peer := ClientSide(c.wire, c.peer, a))])
    else
      var eff := ServerStep(o, w.store, w.clients, c.srv, a);
      var d := c.(srv := eff.srv, wire := Append(c.wire, eff.out));
      ApplyOp(w.(clients := w.clients + Counts(c.srv, a), conns := w.conns[i := d]), eff.op)
  }

  function Next(o: Options, w: World, m: Move): World
    requires w.World? ==> St.Registered(w.store.chans, w.store.subs)
  {
    if w.Crashed? then w
    else
      match m
      case Accept => w.(conns := w.conns + [FRESH])
      case On(i, a) => if i < |w.conns| then ConnMove(o, w, i, a) else w
      case Env(op) => if EnvMay(w, op) then ApplyOp(w, Some(op)) else w
  }
}
