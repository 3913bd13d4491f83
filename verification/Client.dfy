/** The attach client as the object internal/ipc/client.go keeps, proved against ClientSpec, and the
    push loops of runAttach (cmd/dbwatch/main.go). */
module Clients {
  import opened Seqs
  import opened Events
  import opened Channels
  import Spec = ClientSpec
  import Stores
  import StoreSpec
  import StoreProps

  /** What readLoop sends on its error channel. */
  datatype StreamError = StreamEnded | BadEvent

  datatype HandshakeError =
    | NoError | ReadHello | UnexpectedFirst | BadHello | ReadSnapshot | UnexpectedSecond | BadSnapshot

  /** One turn of the running client: its read loop decodes an envelope, or its consumer receives. */
  datatype Turn = Decode(env: Spec.Envelope<Event>) | Consume

  /** What the envelopes of a wire do to the client, one after the other. */
  function ReadAll(c: Spec.Client<Event>, wire: seq<Spec.Envelope<Event>>): Spec.Client<Event> {
    if wire == [] then c
    else Spec.Read(ReadAll(c, wire[..|wire| - 1]), wire[|wire| - 1])
  }

  function Take(c: Spec.Client<Event>): Spec.Client<Event> {
    if c.events == [] then c else c.(events := c.events[1..])
  }

  function Play(c: Spec.Client<Event>, turns: seq<Turn>): Spec.Client<Event> {
    if turns == [] then c
    else
      var was := Play(c, turns[..|turns| - 1]);
      match turns[|turns| - 1]
      case Decode(env) => Spec.Read(was, env)
      case Consume => Take(was)
  }

  class Client {
    var version: string
    var db: string
    var snapshot: seq<Event>
    const events: Channel<Event>
    const stats: Channel<Spec.Stats>
    const errs: Channel<StreamError>
    var dropped: nat

    ghost var abs: Spec.Client<Event>

    ghost predicate Valid()
      reads this, events, stats, errs
    {
      && events.capacity == Spec.EVENTS_CAP && stats.capacity == Spec.STATS_CAP && errs.capacity == 1
      && version == abs.version && db == abs.db && snapshot == abs.snapshot
      && events.queue == abs.events && stats.queue == abs.stats
      && dropped == |abs.dropped| % UINT64
    }

    constructor ()
      ensures Valid() && abs == Spec.Connected()
      ensures fresh(events) && fresh(stats) && fresh(errs)
      ensures !events.closed && !stats.closed && !errs.closed && errs.queue == []
    {
      version, db, snapshot, dropped := "", "", [], 0;
      events := new Channel(Spec.EVENTS_CAP);
      stats := new Channel(Spec.STATS_CAP);
      errs := new Channel(1);
      abs := Spec.Connected();
    }

    /** readHandshake accepts exactly a hello followed by a snapshot. */
    method ReadHandshake(wire: seq<Spec.Envelope<Event>>) returns (err: HandshakeError, read: nat)
      requires Valid() && abs == Spec.Connected()
      modifies this
      ensures Valid() && read <= |wire| && abs == ReadAll(Spec.Connected(), wire[..read])
      ensures err == NoError <==>
                |wire| >= 2 && wire[0].Hello? && (wire[1].Snapshot? || wire[1].EmptySnapshot?)
      ensures err == NoError ==>
                && version == wire[0].version && db == wire[0].db
                && snapshot == if wire[1].Snapshot? then wire[1].items else []
      ensures err == ReadHello <==> wire == []
      ensures err == BadHello <==> |wire| >= 1 && wire[0] == Spec.Malformed(Spec.HelloType)
      ensures err == UnexpectedFirst <==> |wire| >= 1 && !wire[0].Hello? && wire[0] != Spec.Malformed(Spec.HelloType)
      ensures err == ReadSnapshot <==> |wire| == 1 && wire[0].Hello?
      ensures err == BadSnapshot <==> |wire| >= 2 && wire[0].Hello? && wire[1] == Spec.Malformed(Spec.SnapshotType)
      ensures err == NoError <==> abs.phase.Ready?
      ensures err == ReadHello || err == ReadSnapshot <==> read == |wire| && !abs.phase.Ready? && !abs.phase.Refused?
      ensures err == NoError ==> read == 2 && abs.events == [] && abs.dropped == []
    {
      read := 0;
      if |wire| < 1 {
        assert wire[..0] == [];
        return ReadHello, 0;
      }
      read := 1;
      abs := Spec.Read(abs, wire[0]);
      assert wire[..1][..0] == [];
      assert abs == ReadAll(Spec.Connected(), wire[..1]);
      match wire[0] {
        case Hello(v, d) =>
          version, db := v, d;
        case Malformed(HelloType) => return BadHello, 1;
        case _ => return UnexpectedFirst, 1;
      }
      if |wire| < 2 {
        return ReadSnapshot, 1;
      }
      read := 2;
      abs := Spec.Read(abs, wire[1]);
      assert wire[..2][..1] == wire[..1];
      match wire[1] {
        case Snapshot(items) => snapshot := items;
        case EmptySnapshot =>
        case Malformed(SnapshotType) => return BadSnapshot, 2;
        case _ => return UnexpectedSecond, 2;
      }
      err := NoError;
    }

    /** The body of readLoop: a full events channel drops the event and counts it, a full stats
        channel drops silently, an undecodable event ends the loop, all else is ignored. */
    method Handle(env: Spec.Envelope<Event>) returns (ended: bool)
      requires Valid() && abs.phase.Ready? && !events.closed && !stats.closed
      modifies this`dropped, this`abs, events`queue, stats`queue
      ensures Valid() && abs == Spec.Read(old(abs), env)
      ensures ended <==> abs.phase.Ended?
      ensures ended <==> env == Spec.Malformed(Spec.EventType)
      ensures events.queue == old(events.queue) + if env.EventMsg? && |old(events.queue)| < 100 then [env.item] else []
      ensures stats.queue == old(stats.queue) + if env.StatsMsg? && |old(stats.queue)| < 8 then [env.stats] else []
      ensures dropped == if env.EventMsg? && |old(events.queue)| >= 100 then (old(dropped) + 1) % UINT64 else old(dropped)
    {
      ended := false;
      match env {
        case EventMsg(e) =>
          var sent := events.TrySend(e);
          if !sent {
            Stores.NextMod(|abs.dropped|, UINT64);
            dropped := (dropped + 1) % UINT64;
          }
        case Malformed(EventType) =>
          ended := true;
        case StatsMsg(s) =>
          var _ := stats.TrySend(s);
        case _ =>
      }
      abs := Spec.Read(abs, env);
    }

    /** readLoop, with its consumer's receives interleaved. What the consumer got or can still get, merged
        with what was dropped, is every decoded event, in order. When the stream ends, or an event does
        not decode, it sends that one error, which never blocks, and closes its channels. */
    method ReadLoop(turns: seq<Turn>) returns (n: nat, delivered: seq<Event>)
      requires Valid() && abs.phase.Ready? && !events.closed && !stats.closed
      requires abs.events == [] && abs.dropped == [] && !errs.closed && errs.queue == []
      modifies this, events, stats, errs
      ensures Valid() && n <= |turns| && abs == Play(old(abs), turns[..n])
      ensures n == |turns| || abs.phase.Ended?
      ensures events.closed && stats.closed && errs.closed
      ensures errs.queue == [if abs.phase.Ended? then BadEvent else StreamEnded]
      ensures Shuffle<Event>(delivered + events.queue, abs.dropped, DecodedEvents(turns[..n]))
    {
      hide Shuffle, Spec.Read;
      n, delivered := 0, [];
      ShuffleNone<Event>();
      assert delivered + abs.events == [];
      while n < |turns|
        invariant n <= |turns| && Valid() && abs == Play(old(abs), turns[..n])
        invariant abs.phase.Ready? && !events.closed && !stats.closed && !errs.closed && errs.queue == []
        invariant Shuffle<Event>(delivered + abs.events, abs.dropped, DecodedEvents(turns[..n]))
      {
        assert turns[..n + 1][..n] == turns[..n];
        match turns[n] {
          case Decode(env) =>
            ReadShuffles(abs, env, delivered, DecodedEvents(turns[..n]));
            var ended := Handle(env);
            n := n + 1;
            if ended {
              Finish(BadEvent);
              return;
            }
          case Consume =>
            assert DecodedEvents(turns[..n]) + [] == DecodedEvents(turns[..n]);
            delivered := Consume(delivered);
            n := n + 1;
        }
      }
      Finish(StreamEnded);
    }

    /** The error is sent, which cannot block, and the deferred closes run. */
    method Finish(err: StreamError)
      requires !events.closed && !stats.closed && !errs.closed
      requires errs.queue == [] && errs.capacity == 1
      modifies events`closed, stats`closed, errs
      ensures events.closed && stats.closed && errs.closed && errs.queue == [err]
    {
      var _ := errs.TrySend(err);
      errs.Close();
      stats.Close();
      events.Close();
    }

    /** The consumer's receive from the event channel. */
    method Consume(delivered: seq<Event>) returns (all: seq<Event>)
      requires Valid()
      modifies this`abs, events`queue
      ensures Valid() && abs == Take(old(abs))
      ensures all + abs.events == delivered + old(abs).events
    {
      TakeKeepsOrder(abs, delivered);
      var x := events.TryReceive();
      all := delivered;
      if x.Some? {
        all := delivered + [x.value];
      }
      abs := Take(abs);
    }
  }

  function EventIn(env: Spec.Envelope<Event>): seq<Event> {
    if env.EventMsg? then [env.item] else []
  }

  /** The events of the event envelopes decoded. */
  function DecodedEvents(turns: seq<Turn>): seq<Event> {
    if turns == [] then []
    else
      var k := |turns| - 1;
      DecodedEvents(turns[..k]) + if turns[k].Decode? then EventIn(turns[k].env) else []
  }

  lemma ReadShuffles(c: Spec.Client<Event>, env: Spec.Envelope<Event>, delivered: seq<Event>, decoded: seq<Event>)
    requires c.phase.Ready? && Shuffle<Event>(delivered + c.events, c.dropped, decoded)
    ensures var d := Spec.Read(c, env);
            && (d.phase.Ready? || d.phase.Ended?)
            && Shuffle<Event>(delivered + d.events, d.dropped, decoded + EventIn(env))
  {
    hide Shuffle;
    var d := Spec.Read(c, env);
    if env.EventMsg? {
      if |c.events| < Spec.EVENTS_CAP {
        ShuffleLeft<Event>(delivered + c.events, c.dropped, decoded, env.item);
        assert delivered + d.events == delivered + c.events + [env.item];
      } else {
        ShuffleRight<Event>(delivered + c.events, c.dropped, decoded, env.item);
      }
    } else {
      assert d.events == c.events && d.dropped == c.dropped;
      assert decoded + EventIn(env) == decoded;
    }
  }

  lemma TakeKeepsOrder(c: Spec.Client<Event>, delivered: seq<Event>)
    ensures var d := Take(c);
            && d.phase == c.phase && d.dropped == c.dropped
            && (if c.events == [] then delivered else delivered + [c.events[0]]) + d.events == delivered + c.events
  {
  }

  /** runAttach fills a store of its own, first from the client's snapshot and then from its event
      channel. When the daemon's ring held c1 slots over history h, the local snapshot is the last
      min(bufferSize, c1 + |delivered|) of h followed by the delivered events. */
  method FillLocalStore(snapshot: seq<Event>, delivered: seq<Event>, bufferSize: nat, ghost h: seq<Event>, ghost c1: nat)
    returns (st: Stores.Store)
    requires bufferSize > 0
    requires snapshot == LastN(h, c1)
    ensures fresh(st) && st.Valid() && st.abs.history == snapshot + delivered
    ensures StoreProps.Snapshot(st.abs) == LastN(h + delivered, Min(bufferSize, c1 + |delivered|))
  {
    hide StoreSpec.Wf, Stores.RingHolds, Stores.Links, Stores.Mirrors;
    st := new Stores.Store(bufferSize);
    for i := 0 to |snapshot|
      invariant fresh(st) && fresh(st.ring) && st.Valid() && st.capacity == bufferSize
      invariant st.all == [] && st.abs.history == snapshot[..i]
    {
      st.Push(snapshot[i]);
    }
    for i := 0 to |delivered|
      invariant fresh(st) && fresh(st.ring) && st.Valid() && st.capacity == bufferSize
      invariant st.all == [] && st.abs.history == snapshot + delivered[..i]
    {
      st.Push(delivered[i]);
    }
    StoreProps.Rebuffer(h, delivered, c1, bufferSize);
    assert delivered[..|delivered|] == delivered;
  }
}
