/** The two orders in which cmd/dbwatch/main.go joins a local store: runJSONMode subscribes and then
    takes the snapshot, runTUIMode takes the snapshot and then subscribes. Everyone else keeps
    pushing, subscribing and reading in between. */
module LocalViews {
  import opened Seqs
  import opened Events
  import opened StoreSpec
  import opened StoreProps

  lemma {:induction false} MatchingAll(h: seq<Event>, lo: nat, hi: nat)
    requires hi <= |h|
    ensures Matching(h, AllowAll, lo, hi) == Range(lo, hi)
    decreases hi
  {
    if lo < hi {
      MatchingAll(h, lo, hi - 1);
    }
  }

  lemma StepGrows(s: State, op: Op, id: nat)
    requires Wf(s) && Step(s, op).Ok?
    ensures var t := Step(s, op).s;
            && s.history <= t.history && |s.chans| <= |t.chans| && t.capacity == s.capacity
            && (id < |s.chans| ==>
                 && t.chans[id].filter == s.chans[id].filter
                 && t.chans[id].since == s.chans[id].since
                 && (op != Unsubscribe(id) ==> t.chans[id].closedAt == s.chans[id].closedAt))
  {
    if op.Push? {
      BroadcastPointwise(s.chans, s.subs, |s.history|, op.e);
    }
  }

  ghost predicate KeepsOpen(ops: seq<Op>, id: nat) {
    forall i :: 0 <= i < |ops| ==> ops[i] != Unsubscribe(id)
  }

  lemma {:induction false} RunGrows(s: State, ops: seq<Op>, id: nat)
    requires Wf(s) && Run(s, ops).Ok?
    ensures var t := Run(s, ops).s;
            && s.history <= t.history && |s.chans| <= |t.chans| && t.capacity == s.capacity
            && (id < |s.chans| ==>
                 && t.chans[id].filter == s.chans[id].filter
                 && t.chans[id].since == s.chans[id].since
                 && (KeepsOpen(ops, id) ==> t.chans[id].closedAt == s.chans[id].closedAt))
    decreases |ops|
  {
    hide Step, Wf;
    if ops != [] {
      var k := |ops| - 1;
      RunGrows(s, ops[..k], id);
      StepGrows(Run(s, ops[..k]).s, ops[k], id);
    }
  }

  /** The store right after an unfiltered subscription. */
  function Joined(s: State): State {
    s.(chans := s.chans + [Chan(AllowAll, |s.history|, None, [], [], [])], subs := s.subs + [|s.chans|])
  }

  lemma JoinedInv(s: State)
    requires Inv(s)
    ensures Inv(Joined(s)) && Step(s, Subscribe(AllowAll)) == Ok(Joined(s))
  {
    StepKeepsInv(s, Subscribe(AllowAll));
  }

  /** An unfiltered subscription still open: what it received and still holds, merged with what it
      dropped, is every position pushed since. */
  lemma OpenTail(s: State, ops: seq<Op>, id: nat)
    requires Inv(s) && id == |s.chans|
    requires Wf(Joined(s)) && Run(Joined(s), ops).Ok? && KeepsOpen(ops, id)
    ensures var t := Run(Joined(s), ops).s;
            && id < |t.chans| && |s.history| <= |t.history|
            && t.capacity == s.capacity
            && s.history <= t.history
            && var c := t.chans[id];
               && Shuffle<nat>(c.received + c.queue, c.dropped, Range(|s.history|, |t.history|))
               && (c.dropped == [] ==> c.received + c.queue == Range(|s.history|, |t.history|))
  {
    JoinedInv(s);
    RunGrows(Joined(s), ops, id);
    RunKeepsInv(Joined(s), ops);
    var t := Run(Joined(s), ops).s;
    MatchingAll(t.history, |s.history|, |t.history|);
    if t.chans[id].dropped == [] {
      ShuffleAlone<nat>(t.chans[id].received + t.chans[id].queue, Range(|s.history|, |t.history|));
    }
  }

  function SnapshotPositions(s: State): seq<nat> {
    Range(Max(0, |s.history| - s.capacity), |s.history|)
  }

  /** The snapshot method's events are the events at these positions. */
  lemma SnapshotIsPositions(s: State, k: nat)
    requires k < |Snapshot(s)|
    ensures |Snapshot(s)| == |SnapshotPositions(s)|
    ensures SnapshotPositions(s)[k] < |s.history| && Snapshot(s)[k] == s.history[SnapshotPositions(s)[k]]
  {
  }

  /** How often position x occurs in a snapshot [lo, p) followed by a stream [q, now). */
  function Times(lo: nat, p: nat, q: nat, now: nat, x: nat): nat {
    (if lo <= x < p then 1 else 0) + (if q <= x < now then 1 else 0)
  }

  lemma CountSnoc(s: seq<nat>, last: nat, x: nat)
    ensures multiset(s + [last])[x] == multiset(s)[x] + if x == last then 1 else 0
  {
    assert multiset(s + [last]) == multiset(s) + multiset{last};
  }

  lemma {:induction false} RangeCount(lo: nat, hi: nat, x: nat)
    ensures multiset(Range(lo, hi))[x] == if lo <= x < hi then 1 else 0
    decreases hi
  {
    if lo < hi {
      var last: nat := hi - 1;
      assert Range(lo, hi) == Range(lo, last) + [last];
      hide Range;
      RangeCount(lo, last, x);
      CountSnoc(Range(lo, last), last, x);
    } else {
      assert Range(lo, hi) == [];
    }
  }

  lemma RangesCount(lo: nat, p: nat, q: nat, now: nat, x: nat)
    ensures multiset(Range(lo, p) + Range(q, now))[x] == Times(lo, p, q, now, x)
  {
    RangeCount(lo, p, x);
    RangeCount(q, now, x);
    assert multiset(Range(lo, p) + Range(q, now)) == multiset(Range(lo, p)) + multiset(Range(q, now));
  }

  /** Subscribing first: no gap from the older of the two starting points on, and one overlap. */
  ghost predicate Overlapping(shown: seq<nat>, lo: nat, p: nat, q: nat, now: nat) {
    && shown == Range(lo, p) + Range(q, now)
    && (forall x: nat :: multiset(shown)[x] == Times(lo, p, q, now, x))
    && (forall x: nat :: Min(q, lo) <= x < now ==> Times(lo, p, q, now, x) >= 1)
    && (forall x: nat :: Times(lo, p, q, now, x) == 2 <==> Max(q, lo) <= x < p)
  }

  lemma Overlap(shown: seq<nat>, lo: nat, p: nat, q: nat, now: nat)
    requires lo <= p && q <= p <= now && shown == Range(lo, p) + Range(q, now)
    ensures Overlapping(shown, lo, p, q, now)
  {
    hide Range;
    forall x: nat ensures multiset(shown)[x] == Times(lo, p, q, now, x) {
      RangesCount(lo, p, q, now, x);
    }
  }

  /** Snapshotting first: no overlap, and one gap. */
  ghost predicate Gapped(shown: seq<nat>, lo: nat, p: nat, q: nat, now: nat) {
    && shown == Range(lo, p) + Range(q, now)
    && Increasing(shown)
    && (forall x: nat :: x in shown <==> lo <= x < now && !(p <= x < q))
  }

  lemma RangeMembers(lo: nat, hi: nat, x: nat)
    ensures x in Range(lo, hi) <==> lo <= x < hi
  {
    if lo <= x < hi {
      assert Range(lo, hi)[x - lo] == x;
    }
  }

  lemma Gap(shown: seq<nat>, lo: nat, p: nat, q: nat, now: nat)
    requires lo <= p <= q <= now && shown == Range(lo, p) + Range(q, now)
    ensures Gapped(shown, lo, p, q, now)
  {
    hide Range;
    forall x: nat ensures x in shown <==> lo <= x < now && !(p <= x < q) {
      RangeMembers(lo, p, x);
      RangeMembers(q, now, x);
    }
  }

  /** runJSONMode, subscribed at q and snapshotted at p: q <= p. With no overflow, what it prints
      (the snapshot, the events received, and those still queued for it) is [p - capacity, p) then
      [q, now): nothing from min(q, max(0, p - capacity)) on is missing, and exactly the positions
      from max(q, p - capacity) to p are printed twice. */
  lemma JSONModeCoverage(s: State, before: seq<Op>, after: seq<Op>)
    requires Inv(s)
    requires Wf(Joined(s)) && Run(Joined(s), before).Ok?
    requires Run(Run(Joined(s), before).s, after).Ok?
    requires KeepsOpen(before, |s.chans|) && KeepsOpen(after, |s.chans|)
    ensures var id, q := |s.chans|, |s.history|;
            var t := Run(Joined(s), before).s;
            var u := Run(t, after).s;
            var p, lo, now := |t.history|, Max(0, |t.history| - s.capacity), |u.history|;
            && q <= p <= now && id < |u.chans|
            && var c := u.chans[id];
               var shown := SnapshotPositions(t) + c.received + c.queue;
               && Shuffle<nat>(c.received + c.queue, c.dropped, Range(q, now))
               && (c.dropped == [] ==> Overlapping(shown, lo, p, q, now))
  {
    hide Inv, Wf, Run, Shuffle, Range, Overlapping;
    var id := |s.chans|;
    var t := Run(Joined(s), before).s;
    var u := Run(t, after).s;
    RunSplit(Joined(s), before, after);
    OpenTail(s, before, id);
    OpenTail(s, before + after, id);
    RunGrows(t, after, id);
    var c := u.chans[id];
    if c.dropped == [] {
      assert SnapshotPositions(t) + c.received + c.queue == SnapshotPositions(t) + (c.received + c.queue);
      Overlap(SnapshotPositions(t) + c.received + c.queue,
              Max(0, |t.history| - s.capacity), |t.history|, |s.history|, |u.history|);
    }
  }

  lemma {:induction false} RunSplit(s: State, a: seq<Op>, b: seq<Op>)
    requires Wf(s) && Run(s, a).Ok?
    ensures Run(s, a + b) == Run(Run(s, a).s, b)
    decreases |b|
  {
    hide Step, Wf;
    if b == [] {
      assert a + b == a;
    } else {
      var k := |b| - 1;
      RunSplit(s, a, b[..k]);
      assert (a + b)[..|a + b| - 1] == a + b[..k];
    }
  }

  lemma InvWf(s: State)
    requires Inv(s)
    ensures Wf(s)
  {
    hide Wf;
  }

  /** runTUIMode, snapshotted at p and subscribed at q: p <= q. With no overflow, the model's initial
      events followed by its event messages are [p - capacity, p) then [q, now): nothing is shown
      twice, in strictly increasing order, and exactly the pushes between p and q are missing. */
  lemma TUIModeCoverage(s: State, between: seq<Op>, after: seq<Op>)
    requires Inv(s) && Run(s, between).Ok?
    requires var t := Run(s, between).s;
             Wf(Joined(t)) && Run(Joined(t), after).Ok? && KeepsOpen(after, |t.chans|)
    ensures var t := Run(s, between).s;
            var u := Run(Joined(t), after).s;
            var p, q, lo, now := |s.history|, |t.history|, Max(0, |s.history| - s.capacity), |u.history|;
            && p <= q <= now && |t.chans| < |u.chans|
            && var c := u.chans[|t.chans|];
               var shown := SnapshotPositions(s) + c.received + c.queue;
               && Shuffle<nat>(c.received + c.queue, c.dropped, Range(q, now))
               && (c.dropped == [] ==> Gapped(shown, lo, p, q, now))
  {
    hide Inv, Wf, Run, Shuffle, Range, Gapped;
    InvWf(s);
    var t := Run(s, between).s;
    RunKeepsInv(s, between);
    RunGrows(s, between, 0);
    OpenTail(t, after, |t.chans|);
    var u := Run(Joined(t), after).s;
    var c := u.chans[|t.chans|];
    if c.dropped == [] {
      assert SnapshotPositions(s) + c.received + c.queue == SnapshotPositions(s) + (c.received + c.queue);
      Gap(SnapshotPositions(s) + c.received + c.queue,
          Max(0, |s.history| - s.capacity), |s.history|, |t.history|, |u.history|);
    }
  }
}
