/** The listener's hand-off and the attach protocol on one store. */
module EndToEnd {
  import opened Seqs
  import opened Events
  import opened RunnerSpec
  import A = Attach
  import AP = AttachProps
  import LP = ListenerProps
  import RP = RunnerProps
  import St = StoreSpec

  /** A history position of a source is found among that source's pushes, after the earlier ones. */
  lemma {:induction false} PushedByAt(history: seq<Event>, sources: seq<Source>, source: Source, p: nat)
    requires |history| == |sources| && p < |history| && sources[p] == source
    ensures var k := |PushedBy(history[..p], sources[..p], source)|;
            k < |PushedBy(history, sources, source)| && PushedBy(history, sources, source)[k] == history[p]
    decreases |history|
  {
    var n := |history| - 1;
    if p < n {
      PushedByAt(history[..n], sources[..n], source, p);
      assert history[..n][..p] == history[..p] && sources[..n][..p] == sources[..p];
    }
  }

  /** An earlier position of the source has an earlier place among its pushes. */
  lemma PushedByOrder(history: seq<Event>, sources: seq<Source>, source: Source, p: nat, q: nat)
    requires |history| == |sources| && p < q < |history| && sources[p] == source
    ensures |PushedBy(history[..p], sources[..p], source)| < |PushedBy(history[..q], sources[..q], source)|
  {
    PushedByAt(history[..q], sources[..q], source, p);
    assert history[..q][..p] == history[..p] && sources[..q][..p] == sources[..p];
  }

  lemma ListenerIdsIncrease(w: World, p: nat, q: nat)
    requires |w.store.history| == |w.sources| && LP.IdsIncrease(RP.Forwarded(w))
    requires p < q < |w.sources| && w.sources[p] == FromListener == w.sources[q]
    ensures w.store.history[p].id < w.store.history[q].id
  {
    hide PushedBy;
    PushedByAt(w.store.history, w.sources, FromListener, p);
    PushedByAt(w.store.history, w.sources, FromListener, q);
    PushedByOrder(w.store.history, w.sources, FromListener, p, q);
  }

  /** One store seen from both sides: w is any run of core.Run that pushed its history, v any run of
      the attach server and its clients over the same history. Among the items that a client has pushed
      into its own store, those from the listener carry strictly increasing IDs, whatever was dropped on
      the way and whatever other pushers put in between, as long as the 64-bit counter has not wrapped. */
  lemma AttachedIdsIncrease(
      s: St.State, acts: seq<Action>, counter: nat, start: nat,
      o: A.Options, t: St.State, moves: seq<A.Move>, i: nat)
    requires St.Wf(s) && s.capacity > 0 && St.Wf(t) && t.capacity > 0 && counter < UINT64
    ensures var w := RP.Reach(s, acts, counter, start);
            var v := AP.Reach(o, t, moves);
            && |w.store.history| == |w.sources| && w.loop.seen <= |w.turns|
            && (v.store.history == w.store.history && i < |v.conns|
                && counter + |LP.Offered(w.turns[..w.loop.seen], counter)| < UINT64 ==>
                  var pushed := v.conns[i].peer.pushed;
                  && Below(pushed, |w.sources|)
                  && forall a, b ::
                       (0 <= a < b < |pushed|
                        && w.sources[pushed[a]] == FromListener && w.sources[pushed[b]] == FromListener) ==>
                         w.store.history[pushed[a]].id < w.store.history[pushed[b]].id)
  {
    hide RP.Run, AP.Run, AP.AllInv, RP.HandOff, LP.Offered, RP.Forwarded, LP.IdsIncrease;
    RP.StoredIdsIncrease(s, acts, counter, start);
    AP.AttachSafety(o, t, moves, i);
    var w := RP.Reach(s, acts, counter, start);
    var v := AP.Reach(o, t, moves);
    if v.store.history == w.store.history && i < |v.conns|
       && counter + |LP.Offered(w.turns[..w.loop.seen], counter)| < UINT64 {
      var pushed := v.conns[i].peer.pushed;
      forall a, b | 0 <= a < b < |pushed|
        && w.sources[pushed[a]] == FromListener && w.sources[pushed[b]] == FromListener
        ensures w.store.history[pushed[a]].id < w.store.history[pushed[b]].id
      {
        ListenerIdsIncrease(w, pushed[a], pushed[b]);
      }
    }
  }
}
