/** The attach client as a value: what each decoded envelope does to it (internal/ipc/client.go).
    T is the type of feed items, so the same definition serves events and history positions. */
module ClientSpec {
  import opened Seqs

  const EVENTS_CAP: nat := 100
  const STATS_CAP: nat := 8

  datatype MsgType = HelloType | SnapshotType | EventType | StatsType

  datatype Stats = Stats(received: nat, clients: int, buffered: nat)

  /** A decoded envelope; Malformed carries a known type whose payload does not decode. */
  datatype Envelope<+T> =
    | Hello(version: string, db: string)
    | Snapshot(items: seq<T>)
    | EmptySnapshot
    | EventMsg(item: T)
    | StatsMsg(stats: Stats)
    | Ping | Pong | Subscribe | Unknown
    | Malformed(typ: MsgType)

  /** Refused is a failed handshake, Ended a stream that stopped after one. */
  datatype Phase = AwaitHello | AwaitSnapshot | Ready | Refused | Ended

  datatype Client<+T> = Client(
    phase: Phase, version: string, db: string, snapshot: seq<T>,
    events: seq<T>, dropped: seq<T>, stats: seq<Stats>)

  function Connected<T>(): Client<T> {
    Client(AwaitHello, "", "", [], [], [], [])
  }

  /** One envelope through readHandshake (the first two) or readLoop (the rest). */
  function Read<T>(c: Client<T>, env: Envelope<T>): Client<T> {
    match c.phase
    case AwaitHello =>
      if env.Hello? then c.(version := env.version, db := env.db, phase := AwaitSnapshot)
      else c.(phase := Refused)
    case AwaitSnapshot =>
      if env.Snapshot? then c.(snapshot := env.items, phase := Ready)
      else if env.EmptySnapshot? then c.(phase := Ready)
      else c.(phase := Refused)
    case Ready =>
      if env.EventMsg? then
        if |c.events| < EVENTS_CAP then c.(events := c.events + [env.item])
        else c.(dropped := c.dropped + [env.item])
      else if env.Malformed? && env.typ.EventType? then c.(phase := Ended)
      else if env.StatsMsg? && |c.stats| < STATS_CAP then c.(stats := c.stats + [env.stats])
      else c
    case Refused => c
    case Ended => c
  }

  /** The feed items an envelope carries. */
  function ItemsOf<T>(env: Envelope<T>): seq<T> {
    match env
    case Snapshot(items) => items
    case EventMsg(item) => [item]
    case _ => []
  }

  function Items<T>(wire: seq<Envelope<T>>): seq<T> {
    if wire == [] then [] else ItemsOf(wire[0]) + Items(wire[1..])
  }

  lemma {:induction false} ItemsAppend<T>(wire: seq<Envelope<T>>, env: Envelope<T>)
    ensures Items(wire + [env]) == Items(wire) + ItemsOf(env)
    decreases |wire|
  {
    var w := wire + [env];
    if wire == [] {
      assert w[1..] == [];
      assert Items(w) == ItemsOf(env) + Items(w[1..]);
    } else {
      ItemsAppend(wire[1..], env);
      assert w[1..] == wire[1..] + [env];
    }
  }
}
