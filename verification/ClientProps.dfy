/** What the attach client keeps and what it loses, over any run of its read loop and its consumer. */
module ClientProps {
  import opened Seqs
  import opened Events
  import opened Clients
  import Spec = ClientSpec

  function StatsIn(turns: seq<Turn>): seq<Spec.Stats> {
    if turns == [] then []
    else
      var k := |turns| - 1;
      StatsIn(turns[..k]) + if turns[k].Decode? && turns[k].env.StatsMsg? then [turns[k].env.stats] else []
  }

  /** How many events wait after the turns, read off them alone. */
  function Backlog(turns: seq<Turn>): nat {
    if turns == [] then 0
    else
      var k := |turns| - 1;
      var b := Backlog(turns[..k]);
      match turns[k]
      case Decode(env) => if env.EventMsg? then Min(b + 1, 100) else b
      case Consume => if b > 0 then b - 1 else 0
  }

  /** The events that found fewer than 100 waiting. */
  function Kept(turns: seq<Turn>): seq<Event> {
    if turns == [] then []
    else
      var k := |turns| - 1;
      Kept(turns[..k])
      + if turns[k].Decode? && turns[k].env.EventMsg? && Backlog(turns[..k]) < 100 then [turns[k].env.item] else []
  }

  /** The events that found 100 waiting. */
  function Lost(turns: seq<Turn>): seq<Event> {
    if turns == [] then []
    else
      var k := |turns| - 1;
      Lost(turns[..k])
      + if turns[k].Decode? && turns[k].env.EventMsg? && Backlog(turns[..k]) == 100 then [turns[k].env.item] else []
  }

  predicate BadEventIn(turns: seq<Turn>) {
    exists k :: 0 <= k < |turns| && turns[k] == Decode(Spec.Malformed(Spec.EventType))
  }

  function FirstN<T>(s: seq<T>, n: nat): seq<T> {
    if |s| <= n then s else s[..n]
  }

  /** The client that has read its handshake and nothing else. */
  predicate Unused(c: Spec.Client<Event>) {
    c.phase.Ready? && c.events == [] && c.dropped == [] && c.stats == []
  }

  ghost predicate Follows(c: Spec.Client<Event>, d: Spec.Client<Event>, turns: seq<Turn>) {
    && d == c.(events := d.events, dropped := d.dropped, stats := d.stats)
    && d.dropped == Lost(turns)
    && d.stats == FirstN(StatsIn(turns), 8)
    && Backlog(turns) <= Min(|Kept(turns)|, 100)
    && d.events == LastN(Kept(turns), Backlog(turns))
  }

  lemma LastNSnoc(s: seq<Event>, x: Event, n: nat)
    requires n <= |s|
    ensures LastN(s + [x], n + 1) == LastN(s, n) + [x]
  {
  }

  lemma LastNTail(s: seq<Event>, n: nat)
    requires 0 < n <= |s|
    ensures LastN(s, n) != [] && LastN(s, n)[1..] == LastN(s, n - 1)
  {
  }

  lemma TurnFollows(c: Spec.Client<Event>, d: Spec.Client<Event>, turns: seq<Turn>, t: Turn)
    requires Unused(c) && Follows(c, d, turns) && t != Decode(Spec.Malformed(Spec.EventType))
    ensures Follows(c, match t case Decode(env) => Spec.Read(d, env) case Consume => Take(d), turns + [t])
  {
    var all := turns + [t];
    assert all[..|turns|] == turns && all[|turns|] == t;
    var kept, lost, sts := Kept(turns), Lost(turns), StatsIn(turns);
    assert kept + [] == kept && lost + [] == lost && sts + [] == sts;
    if t.Consume? {
      if Backlog(turns) > 0 {
        LastNTail(kept, Backlog(turns));
      }
      assert Kept(all) == kept && Lost(all) == lost && StatsIn(all) == sts;
    } else if t.env.EventMsg? {
      LastNSnoc(kept, t.env.item, Backlog(turns));
      assert StatsIn(all) == sts;
    } else {
      assert Kept(all) == kept && Lost(all) == lost;
    }
  }

  /** Whatever the client decodes and its consumer takes: an event is dropped if and only if 100 were
      waiting when it came, the kept ones wait in order, the first 8 stats are kept, nothing else
      changes; and the stream ends early if and only if an event does not decode. */
  lemma {:induction false} ClientLaw(c: Spec.Client<Event>, turns: seq<Turn>)
    requires Unused(c)
    ensures !BadEventIn(turns) ==> Follows(c, Play(c, turns), turns)
    ensures BadEventIn(turns) <==> Play(c, turns).phase.Ended?
    decreases |turns|
  {
    hide Follows, Spec.Read;
    if turns == [] {
      StartFollows(c);
    } else {
      var k := |turns| - 1;
      var init, t := turns[..k], turns[k];
      assert init + [t] == turns;
      ClientLaw(c, init);
      var d := Play(c, init);
      BadEventSnoc(init, t);
      if BadEventIn(init) {
        EndedStays(d, t);
      } else {
        FollowsReady(c, d, init);
        if t == Decode(Spec.Malformed(Spec.EventType)) {
          BadEventEnds(d);
        } else {
          TurnFollows(c, d, init, t);
          FollowsReady(c, Play(c, turns), turns);
        }
      }
    }
  }

  lemma StartFollows(c: Spec.Client<Event>)
    requires Unused(c)
    ensures Follows(c, c, [])
  {
  }

  lemma FollowsReady(c: Spec.Client<Event>, d: Spec.Client<Event>, turns: seq<Turn>)
    requires Unused(c) && Follows(c, d, turns)
    ensures d.phase.Ready?
  {
  }

  lemma BadEventSnoc(turns: seq<Turn>, t: Turn)
    ensures BadEventIn(turns + [t]) <==> BadEventIn(turns) || t == Decode(Spec.Malformed(Spec.EventType))
  {
    var all := turns + [t];
    if BadEventIn(turns) {
      var k :| 0 <= k < |turns| && turns[k] == Decode(Spec.Malformed(Spec.EventType));
      assert all[k] == turns[k];
    }
    assert all[|turns|] == t;
  }

  lemma EndedStays(d: Spec.Client<Event>, t: Turn)
    requires d.phase.Ended?
    ensures (match t case Decode(env) => Spec.Read(d, env) case Consume => Take(d)).phase.Ended?
  {
  }

  lemma BadEventEnds(d: Spec.Client<Event>)
    requires d.phase.Ready?
    ensures Spec.Read(d, Spec.Malformed(Spec.EventType)).phase.Ended?
  {
  }
}
