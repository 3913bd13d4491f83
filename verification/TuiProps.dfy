/** What the terminal UI guarantees over every run of messages and keys. */
module TuiProps {
  import opened Seqs
  import opened Events
  import opened TuiSpec

  /** The listener always names the table of a DB event. */
  predicate Named(e: Event) {
    e.IsDBEvent() ==> e.table != ""
  }

  predicate AllNamed(events: seq<Event>) {
    forall i :: 0 <= i < |events| ==> Named(events[i])
  }

  predicate MsgNamed(msg: Msg) {
    msg.EventMsg? ==> Named(msg.e)
  }

  ghost predicate Known(events: seq<Event>, active: map<string, bool>) {
    forall i :: 0 <= i < |events| && events[i].IsDBEvent() ==> events[i].table in active
  }

  ghost predicate Distinct(tables: seq<string>) {
    forall i, j :: 0 <= i < j < |tables| ==> tables[i] != tables[j]
  }

  ghost predicate TablesOk(tables: seq<string>, active: map<string, bool>) {
    Distinct(tables) && forall t :: t in tables <==> t in active
  }

  ghost predicate Safe(m: Model) {
    && 0 <= m.cursor < Max(1, |m.View()|)
    && 0 <= m.filterCursor < Max(1, |m.tables|)
    && TablesOk(m.tables, m.active)
    && (m.pending != [] ==> m.paused)
    && !(m.confirmClear && m.showHelp)
    && (m.confirmClear || m.showHelp ==> m.focus.FocusFeed?)
    && Known(m.allEvents, m.active) && Known(m.pending, m.active)
  }

  // ---- the filtered view ----

  lemma {:induction false} FilteredLength(events: seq<Event>, active: map<string, bool>)
    ensures |Filtered(events, active)| == |events| <==> forall i :: 0 <= i < |events| ==> Passes(events[i], active)
    ensures |Filtered(events, active)| == |events| ==> Filtered(events, active) == events
    decreases |events|
  {
    if events != [] {
      var k := |events| - 1;
      FilteredLength(events[..k], active);
      assert events == events[..k] + [events[k]];
      if |Filtered(events, active)| == |events| {
        assert Passes(events[k], active);
        forall i | 0 <= i < |events| ensures Passes(events[i], active) {
          assert i < k ==> events[..k][i] == events[i];
        }
      }
    }
  }

  /** While every DB event's table is in the filter map, the empty-map shortcut changes nothing. */
  lemma VisibleIsFiltered(events: seq<Event>, active: map<string, bool>)
    requires Known(events, active)
    ensures Visible(events, active) == Filtered(events, active)
  {
    if active == map[] {
      FilteredLength(events, active);
    }
  }

  /** Two filter maps that agree on the tables of the events show the same view. */
  lemma {:induction false} FilteredAgrees(events: seq<Event>, a: map<string, bool>, b: map<string, bool>)
    requires forall i :: 0 <= i < |events| ==> Passes(events[i], a) == Passes(events[i], b)
    ensures Filtered(events, a) == Filtered(events, b)
    decreases |events|
  {
    if events != [] {
      FilteredAgrees(events[..|events| - 1], a, b);
    }
  }

  function HiddenBy(events: seq<Event>, active: map<string, bool>): seq<Event> {
    if events == [] then []
    else
      var k := |events| - 1;
      HiddenBy(events[..k], active) + if Passes(events[k], active) then [] else [events[k]]
  }

  lemma {:induction false} ViewMerges(events: seq<Event>, active: map<string, bool>)
    ensures Shuffle<Event>(Filtered(events, active), HiddenBy(events, active), events)
    decreases |events|
  {
    if events != [] {
      var k := |events| - 1;
      ViewMerges(events[..k], active);
      var a, b := Filtered(events[..k], active), HiddenBy(events[..k], active);
      assert events == events[..k] + [events[k]];
      assert a + [] == a && b + [] == b;
      hide Shuffle, Passes;
      if Passes(events[k], active) {
        ShuffleLeft<Event>(a, b, events[..k], events[k]);
      } else {
        ShuffleRight<Event>(a, b, events[..k], events[k]);
      }
    }
  }

  lemma {:induction false} ViewMembers(events: seq<Event>, active: map<string, bool>)
    ensures forall i :: 0 <= i < |Filtered(events, active)| ==> Passes(Filtered(events, active)[i], active)
    ensures forall i :: 0 <= i < |HiddenBy(events, active)| ==> !Passes(HiddenBy(events, active)[i], active)
    decreases |events|
  {
    hide Passes;
    if events != [] {
      ViewMembers(events[..|events| - 1], active);
    }
  }

  /** The view keeps the feed's order and hides exactly the DB events whose table is not enabled. */
  lemma ViewSplitsFeed(events: seq<Event>, active: map<string, bool>)
    ensures var view, hidden := Filtered(events, active), HiddenBy(events, active);
            && Shuffle<Event>(view, hidden, events)
            && multiset(view) + multiset(hidden) == multiset(events)
            && (forall i :: 0 <= i < |view| ==>
                 !view[i].IsDBEvent() || (view[i].table in active && active[view[i].table]))
            && (forall i :: 0 <= i < |hidden| ==>
                 hidden[i].IsDBEvent() && !(hidden[i].table in active && active[hidden[i].table]))
  {
    hide Shuffle, Filtered, HiddenBy;
    ViewMerges(events, active);
    ViewMembers(events, active);
    ShuffleMultiset<Event>(Filtered(events, active), HiddenBy(events, active), events);
  }

  // ---- safety, one message ----

  lemma RegisterKeeps(m: Model, e: Event)
    requires Safe(m) && Named(e)
    ensures var n := Register(m, e);
            && Safe(n) && Known([e], n.active) && n.View() == m.View()
            && n == m.(tables := n.tables, active := n.active)
            && m.tables <= n.tables
  {
    var n := Register(m, e);
    RegisterTables(m, e);
    hide Filtered, Visible, Passes, TablesOk, Register;
    ViewAgrees(m.allEvents, m.active, n.active);
  }

  /** Registering a table only adds: the entries already there keep their setting. */
  lemma RegisterTables(m: Model, e: Event)
    requires TablesOk(m.tables, m.active) && Named(e)
    ensures var n := Register(m, e);
            && n == m.(tables := n.tables, active := n.active)
            && TablesOk(n.tables, n.active) && m.tables <= n.tables
            && Known([e], n.active)
            && (NamesTable(e) && e.table !in m.active ==> n.active[e.table])
            && forall t :: t in m.active ==> t in n.active && n.active[t] == m.active[t]
  {
  }

  lemma ViewAgrees(events: seq<Event>, a: map<string, bool>, b: map<string, bool>)
    requires Known(events, a) && forall t :: t in a ==> t in b && b[t] == a[t]
    ensures Known(events, b) && Visible(events, a) == Visible(events, b)
  {
    hide Filtered, Visible;
    VisibleIsFiltered(events, a);
    VisibleIsFiltered(events, b);
    FilteredAgrees(events, a, b);
  }

  lemma ViewAppend(events: seq<Event>, e: Event, active: map<string, bool>)
    requires Known(events, active) && Known([e], active)
    ensures Known(events + [e], active)
    ensures Visible(events + [e], active) == Visible(events, active) + if Passes(e, active) then [e] else []
  {
    VisibleIsFiltered(events, active);
    VisibleIsFiltered(events + [e], active);
    assert (events + [e])[..|events|] == events;
  }

  lemma EventKeeps(m: Model, e: Event)
    requires Safe(m) && Named(e)
    ensures Safe(OnEvent(m, e))
  {
    hide Filtered;
    RegisterKeeps(m, e);
    var n := Register(m, e);
    if !n.paused {
      ViewAppend(n.allEvents, e, n.active);
    }
  }

  lemma KnownAppend(a: seq<Event>, b: seq<Event>, active: map<string, bool>)
    requires Known(a, active) && Known(b, active)
    ensures Known(a + b, active)
  {
  }

  lemma ToggleKeeps(m: Model)
    requires Safe(m) && !m.confirmClear && !m.showHelp
    ensures Safe(Toggle(m))
  {
    assert Known([], m.active);
    KnownAppend(m.allEvents, m.pending, m.active);
    hide Visible, TablesOk, Known;
  }

  lemma TrimKeeps(m: Model)
    requires Safe(m)
    ensures Safe(Trim(m))
  {
    hide Visible, TablesOk, PrevMarker;
  }

  lemma JumpCursor(m: Model)
    requires InRange(m) && m.cursor < Max(1, |m.View()|)
    ensures 0 <= FeedKey(m, LeftBracket).cursor < Max(1, |m.View()|)
    ensures 0 <= FeedKey(m, RightBracket).cursor < Max(1, |m.View()|)
  {
    hide Visible, PrevMarker, NextMarker, Trim, Toggle;
  }

  lemma ScrollCursor(m: Model, key: Key)
    requires InRange(m) && m.cursor < Max(1, |m.View()|)
    requires key.KeyJ? || key.Down? || key.KeyK? || key.Up? || key.KeyG? || key.ShiftG?
    ensures 0 <= FeedKey(m, key).cursor < Max(1, |m.View()|)
  {
    hide Visible, PrevMarker, NextMarker, Trim, Toggle;
  }

  predicate MovesCursor(key: Key) {
    key.KeyJ? || key.Down? || key.KeyK? || key.Up? || key.KeyG? || key.ShiftG? || key.LeftBracket? || key.RightBracket?
  }

  lemma OtherKeysStay(m: Model, key: Key)
    requires InRange(m) && !MovesCursor(key) && !key.Space? && !key.ShiftM?
    ensures FeedKey(m, key).cursor == m.cursor
  {
    hide InRange, Visible, PrevMarker, NextMarker, Trim, Toggle;
  }

  lemma FeedKeyCursor(m: Model, key: Key)
    requires InRange(m) && m.cursor < Max(1, |m.View()|) && !key.Space? && !key.ShiftM?
    ensures 0 <= FeedKey(m, key).cursor < Max(1, |m.View()|)
  {
    hide FeedKey, Visible;
    if key.LeftBracket? || key.RightBracket? {
      JumpCursor(m);
    } else if MovesCursor(key) {
      ScrollCursor(m, key);
    } else {
      OtherKeysStay(m, key);
    }
  }

  lemma MoveKeeps(m: Model, key: Key)
    requires Safe(m) && InRange(m) && !m.confirmClear && !m.showHelp && m.focus.FocusFeed?
    requires !key.Space? && !key.ShiftM?
    ensures Safe(FeedKey(m, key))
  {
    hide Visible, TablesOk, Known, FeedKey;
    FeedKeyFrame(m, key);
    FeedKeyCursor(m, key);
  }

  lemma FeedKeeps(m: Model, key: Key)
    requires Safe(m) && !m.confirmClear && !m.showHelp && m.focus.FocusFeed?
    ensures InRange(m) && Safe(FeedKey(m, key))
  {
    hide Safe, InRange, Visible, PrevMarker, NextMarker, Toggle, Trim;
    SafeInRange(m);
    if key.Space? {
      ToggleKeeps(m);
    } else if key.ShiftM? {
      TrimKeeps(m);
    } else {
      MoveKeeps(m, key);
    }
  }

  lemma ToggleTableKeeps(m: Model)
    requires Safe(m)
    ensures InRange(m) && Safe(ToggleTable(m))
  {
    hide Visible, Passes;
  }

  lemma SidebarKeeps(m: Model, key: Key)
    requires Safe(m) && InRange(m) && !m.confirmClear && !m.showHelp && !key.Space?
    ensures Safe(FilterKey(m, key))
  {
    hide Visible, TablesOk, Known, FilterKey, ToggleTable;
    FilterKeyFrame(m, key);
    FilterKeyStay(m, key);
  }

  lemma FilterKeyStay(m: Model, key: Key)
    requires InRange(m) && !key.Space?
    ensures FilterKey(m, key).cursor == m.cursor
  {
    hide Visible, ToggleTable, InRange;
  }

  lemma FilterKeeps(m: Model, key: Key)
    requires Safe(m) && !m.confirmClear && !m.showHelp
    ensures InRange(m) && Safe(FilterKey(m, key))
  {
    hide Safe, InRange, Visible, ToggleTable;
    SafeInRange(m);
    if key.Space? {
      ToggleTableKeeps(m);
    } else {
      SidebarKeeps(m, key);
    }
  }

  lemma SafeInRange(m: Model)
    requires Safe(m)
    ensures InRange(m)
  {
  }

  lemma ClearKeeps(m: Model)
    requires Safe(m)
    ensures Safe(Clear(m).(confirmClear := false))
  {
  }

  /** Every message keeps the model safe, so no index into the view or the table list is out of range. */
  lemma UpdateKeeps(m: Model, msg: Msg)
    requires Safe(m) && MsgNamed(msg)
    ensures InRange(m) && Safe(Handle(m, msg))
  {
    SafeInRange(m);
    if msg.EventMsg? {
      EventKeeps(m, msg.e);
    } else if msg.KeyMsg? && !m.confirmClear && !m.showHelp {
      if m.focus.FocusFeed? {
        FeedKeeps(m, msg.key);
      } else {
        FilterKeeps(m, msg.key);
      }
    } else {
      ClearKeeps(m);
    }
  }

  // ---- safety, whole runs ----

  lemma {:induction false} TablesOfFacts(events: seq<Event>)
    ensures Distinct(TablesOf(events))
    ensures forall t :: t in TablesOf(events) <==> exists i :: 0 <= i < |events| && NamesTable(events[i]) && events[i].table == t
    decreases |events|
  {
    if events != [] {
      var k := |events| - 1;
      TablesOfFacts(events[..k]);
      forall t
        ensures t in TablesOf(events) <==> exists i :: 0 <= i < |events| && NamesTable(events[i]) && events[i].table == t
      {
        if t in TablesOf(events[..k]) {
          var i :| 0 <= i < k && NamesTable(events[..k][i]) && events[..k][i].table == t;
          assert NamesTable(events[i]) && events[i].table == t;
        }
        if i :| 0 <= i < |events| && NamesTable(events[i]) && events[i].table == t {
          if i < k {
            assert NamesTable(events[..k][i]) && events[..k][i].table == t;
          }
        }
      }
    }
  }

  /** DB events without a table name; they have no entry in the filter map. */
  function Tableless(events: seq<Event>): nat {
    if events == [] then 0
    else
      var k := |events| - 1;
      Tableless(events[..k]) + if Named(events[k]) then 0 else 1
  }

  lemma {:induction false} TablelessNone(events: seq<Event>)
    ensures Tableless(events) == 0 <==> AllNamed(events)
    decreases |events|
  {
    if events != [] {
      var k := |events| - 1;
      TablelessNone(events[..k]);
      assert AllNamed(events) <==> AllNamed(events[..k]) && Named(events[k]);
    }
  }

  lemma {:induction false} FilteredCount(events: seq<Event>, active: map<string, bool>)
    requires forall i :: 0 <= i < |events| ==> Passes(events[i], active) == Named(events[i])
    ensures |Filtered(events, active)| == |events| - Tableless(events)
    decreases |events|
  {
    if events != [] {
      FilteredCount(events[..|events| - 1], active);
    }
  }

  /** NewWithEvents puts the cursor at the end of the unfiltered list. That is inside the view if and
      only if the DB events all name a table or none does; and the "[" scan stays in range if and only
      if at most one DB event of a mixed list lacks a table. */
  lemma NewCursorIff(events: seq<Event>)
    ensures var m := NewWithEvents(events);
            && (0 <= m.cursor < Max(1, |m.View()|) <==> TablesOf(events) == [] || AllNamed(events))
            && (InRange(m) <==> TablesOf(events) == [] || Tableless(events) <= 1)
  {
    var m := NewWithEvents(events);
    TablesOfFacts(events);
    TablelessNone(events);
    if m.tables != [] {
      assert m.tables[0] in m.active;
      forall i | 0 <= i < |events| ensures Passes(events[i], m.active) == Named(events[i]) {
        if NamesTable(events[i]) {
          assert events[i].table in m.tables;
        }
      }
      FilteredCount(events, m.active);
      if |events| == 1 {
        assert NamesTable(events[0]);
      }
    } else {
      assert m.active == map[];
    }
  }

  /** A preloaded mix whose "[" scan starts out of range: one event with a table, two without. Only a
      caller of the exported constructor can pass it: no pusher leaves a DB event without a table. */
  lemma NewCursorOutOfRange()
    ensures var e := ZERO_EVENT;
            var m := NewWithEvents([e.(table := "t"), e, e]);
            |m.View()| == 1 && m.cursor == 2 && !InRange(m)
  {
    var e := ZERO_EVENT;
    var a := e.(table := "t");
    var events := [a, e, e];
    assert events[..2] == [a, e] && [a, e][..1] == [a] && [a][..0] == [];
    assert TablesOf([a]) == ["t"] && TablesOf([a, e]) == ["t"] && TablesOf(events) == ["t"];
    var active := NewWithEvents(events).active;
    assert "t" in active && "" !in active;
    assert Filtered([a], active) == [a] && Filtered([a, e], active) == [a] && Filtered(events, active) == [a];
  }

  lemma NewSafe(events: seq<Event>)
    requires AllNamed(events)
    ensures Safe(NewWithEvents(events))
  {
    NewCursorIff(events);
    TablesOfFacts(events);
  }

  ghost function Run(m: Model, msgs: seq<Msg>): (r: Model)
    requires Safe(m) && forall i :: 0 <= i < |msgs| ==> MsgNamed(msgs[i])
    ensures Safe(r)
    decreases |msgs|
  {
    if msgs == [] then m
    else
      var r := Run(m, msgs[..|msgs| - 1]);
      UpdateKeeps(r, msgs[|msgs| - 1]);
      Handle(r, msgs[|msgs| - 1])
  }

  /** Over every run of messages and keys: both cursors stay inside their lists, the sidebar's tables
      are distinct and are the filter map's keys, events wait only while paused, the two overlays are
      never both on, and the next message's index expressions are in range whatever it is. */
  lemma SafeRuns(events: seq<Event>, msgs: seq<Msg>)
    requires AllNamed(events) && forall i :: 0 <= i < |msgs| ==> MsgNamed(msgs[i])
    ensures Safe(NewWithEvents(events))
    ensures var m := Run(NewWithEvents(events), msgs);
            && 0 <= m.cursor < Max(1, |m.View()|)
            && 0 <= m.filterCursor < Max(1, |m.tables|)
            && Distinct(m.tables) && (forall t :: t in m.tables <==> t in m.active)
            && (m.pending != [] ==> m.paused)
            && !(m.confirmClear && m.showHelp)
            && InRange(m)
  {
    NewSafe(events);
  }

  // ---- conservation ----

  function Feed(m: Model): seq<Event> {
    m.allEvents + m.pending
  }

  function Received(msgs: seq<Msg>): seq<Event> {
    if msgs == [] then []
    else
      var k := |msgs| - 1;
      Received(msgs[..k]) + if msgs[k].EventMsg? then [msgs[k].e] else []
  }

  predicate Confirms(m: Model, msg: Msg) {
    msg.KeyMsg? && m.confirmClear && msg.key.KeyC?
  }

  /** A key reaches the feed panel, not an overlay or the sidebar. */
  predicate InFeed(m: Model, msg: Msg, key: Key) {
    msg == KeyMsg(key) && !m.confirmClear && !m.showHelp && m.focus.FocusFeed?
  }

  /** How many of the oldest items of the feed a message discards. */
  function Discards(m: Model, msg: Msg): nat {
    if Confirms(m, msg) then |Feed(m)|
    else if InFeed(m, msg, ShiftM) then Max(0, LastMarker(m.allEvents))
    else 0
  }

  /** The keys of the feed panel other than pause and trim only move within it. */
  lemma FeedKeyMoves(m: Model, key: Key)
    requires InRange(m) && !key.Space? && !key.ShiftM?
    ensures var n := FeedKey(m, key);
            n == m.(cursor := n.cursor, expanded := n.expanded, focus := n.focus, filterCursor := n.filterCursor,
                    confirmClear := n.confirmClear, showHelp := n.showHelp)
  {
    hide Visible, PrevMarker, NextMarker, Trim, Toggle;
  }

  lemma FeedKeyModes(m: Model, key: Key)
    requires InRange(m) && !key.Space? && !key.ShiftM?
    ensures var n := FeedKey(m, key);
            && n.focus == (if key.KeyF? then FocusFilter else m.focus)
            && n.filterCursor == (if key.KeyF? then 0 else m.filterCursor)
            && n.confirmClear == (m.confirmClear || key.KeyC?)
            && n.showHelp == (m.showHelp || key.Question?)
  {
    hide Visible, PrevMarker, NextMarker, Trim, Toggle;
  }

  lemma FeedKeyFrame(m: Model, key: Key)
    requires InRange(m) && !key.Space? && !key.ShiftM?
    ensures var n := FeedKey(m, key);
            && n == m.(cursor := n.cursor, expanded := n.expanded, focus := n.focus, filterCursor := n.filterCursor,
                       confirmClear := n.confirmClear, showHelp := n.showHelp)
            && n.focus == (if key.KeyF? then FocusFilter else m.focus)
            && n.filterCursor == (if key.KeyF? then 0 else m.filterCursor)
            && n.confirmClear == (m.confirmClear || key.KeyC?)
            && n.showHelp == (m.showHelp || key.Question?)
  {
    hide FeedKey, InRange;
    FeedKeyMoves(m, key);
    FeedKeyModes(m, key);
  }

  function SidebarCursor(m: Model, key: Key): int {
    if (key.KeyJ? || key.Down?) && m.filterCursor < |m.tables| - 1 then m.filterCursor + 1
    else if (key.KeyK? || key.Up?) && m.filterCursor > 0 then m.filterCursor - 1
    else m.filterCursor
  }

  lemma ToggleTableFrame(m: Model)
    requires InRange(m)
    ensures var n := ToggleTable(m);
            && n == m.(cursor := n.cursor, active := n.active)
            && n.active == if m.tables == [] then m.active
                           else
                             var t := m.tables[m.filterCursor];
                             m.active[t := !(t in m.active && m.active[t])]
  {
    hide Visible;
  }

  /** The sidebar's keys leave the feed alone, and act on the tables the same way whatever the cursor. */
  lemma FilterKeyMoves(m: Model, key: Key)
    requires InRange(m)
    ensures var n := FilterKey(m, key);
            n == m.(cursor := n.cursor, focus := n.focus, filterCursor := n.filterCursor, active := n.active)
  {
    hide Visible, ToggleTable, InRange;
    if key.Space? {
      ToggleTableFrame(m);
    }
  }

  lemma FilterKeyFrame(m: Model, key: Key)
    requires InRange(m)
    ensures var n := FilterKey(m, key);
            && n == m.(cursor := n.cursor, focus := n.focus, filterCursor := n.filterCursor, active := n.active)
            && n.focus == (if key.KeyF? || key.Esc? then FocusFeed else m.focus)
            && n.filterCursor == SidebarCursor(m, key)
            && n.active == (if key.Space? then ToggleTable(m).active else m.active)
  {
    hide Visible, ToggleTable, InRange;
    FilterKeyMoves(m, key);
    ToggleTableFrame(m);
  }

  lemma ToggleFrame(m: Model)
    requires m.pending != [] ==> m.paused
    ensures var n := Toggle(m);
            && n == m.(allEvents := n.allEvents, pending := n.pending, cursor := n.cursor, paused := !m.paused)
            && Feed(n) == Feed(m) && (m.paused ==> n.allEvents == Feed(m) && n.pending == [])
  {
    hide Visible;
  }

  lemma TrimFrame(m: Model)
    ensures var n := Trim(m);
            && n == m.(allEvents := n.allEvents, cursor := n.cursor, expanded := n.expanded)
            && Feed(n) == Feed(m)[Max(0, LastMarker(m.allEvents))..]
  {
    hide PrevMarker;
    if LastMarker(m.allEvents) <= 0 {
      assert Feed(m)[0..] == Feed(m);
    }
  }

  lemma FeedKeyConserves(m: Model, key: Key)
    requires InRange(m) && (m.pending != [] ==> m.paused)
    ensures Feed(FeedKey(m, key)) == Feed(m)[if key.ShiftM? then Max(0, LastMarker(m.allEvents)) else 0..]
  {
    hide Visible, PrevMarker, NextMarker, LastMarker, Trim, Toggle;
    assert Feed(m)[0..] == Feed(m);
    if key.ShiftM? {
      TrimFrame(m);
    } else if key.Space? {
      ToggleFrame(m);
    } else {
      FeedKeyFrame(m, key);
    }
  }

  lemma FilterKeyConserves(m: Model, key: Key)
    requires InRange(m)
    ensures Feed(FilterKey(m, key)) == Feed(m)
  {
    FilterKeyFrame(m, key);
    hide FilterKey;
  }

  lemma KeyConserves(m: Model, key: Key)
    requires InRange(m) && (m.pending != [] ==> m.paused)
    ensures Discards(m, KeyMsg(key)) <= |Feed(m)|
    ensures Feed(OnKey(m, key)) == Feed(m)[Discards(m, KeyMsg(key))..]
  {
    hide FeedKey, FilterKey, LastMarker, InRange;
    assert Feed(m)[0..] == Feed(m) && Feed(m)[|Feed(m)|..] == [];
    if m.confirmClear {
      assert Feed(Clear(m)) == [];
    } else if m.showHelp {
    } else if m.focus.FocusFeed? {
      FeedKeyConserves(m, key);
    } else {
      FilterKeyConserves(m, key);
    }
  }

  lemma EventConserves(m: Model, e: Event)
    requires m.pending != [] ==> m.paused
    ensures Feed(OnEvent(m, e)) == Feed(m) + [e]
  {
    var n := Register(m, e);
    assert n == m.(tables := n.tables, active := n.active);
    hide Register, Visible;
    var r := n.(allEvents := n.allEvents + [e]);
    if n.paused {
      assert OnEvent(m, e) == n.(pending := n.pending + [e]);
    } else {
      assert OnEvent(m, e) == r.(cursor := OnEvent(m, e).cursor);
    }
  }

  lemma StepConserves(m: Model, msg: Msg)
    requires Safe(m) && MsgNamed(msg)
    ensures InRange(m) && Discards(m, msg) <= |Feed(m)|
    ensures Feed(Handle(m, msg)) == (Feed(m) + if msg.EventMsg? then [msg.e] else [])[Discards(m, msg)..]
  {
    SafeInRange(m);
    assert m.pending != [] ==> m.paused;
    hide Safe, InRange, OnKey, OnEvent, Visible;
    assert Feed(m) + [] == Feed(m) == Feed(m)[0..];
    if msg.EventMsg? {
      assert Discards(m, msg) == 0;
      hide Discards;
      EventConserves(m, msg.e);
      assert (Feed(m) + [msg.e])[0..] == Feed(m) + [msg.e];
    } else if msg.KeyMsg? {
      KeyConserves(m, msg.key);
      hide Discards;
    }
  }

  /** Everything a run discarded, counted from the oldest item ever in the feed. */
  ghost function Discarded(m: Model, msgs: seq<Msg>): nat
    requires Safe(m) && forall i :: 0 <= i < |msgs| ==> MsgNamed(msgs[i])
    decreases |msgs|
  {
    if msgs == [] then 0
    else
      var k := |msgs| - 1;
      Discarded(m, msgs[..k]) + Discards(Run(m, msgs[..k]), msgs[k])
  }

  /** After every run the feed with its pause buffer is a contiguous suffix of what it started with
      followed by everything received: nothing is lost, repeated or reordered except the oldest items
      that confirmed clears and trims discarded. */
  lemma {:induction false} FeedConservation(m: Model, msgs: seq<Msg>)
    requires Safe(m) && forall i :: 0 <= i < |msgs| ==> MsgNamed(msgs[i])
    ensures Discarded(m, msgs) <= |Feed(m) + Received(msgs)|
    ensures Feed(Run(m, msgs)) == (Feed(m) + Received(msgs))[Discarded(m, msgs)..]
    decreases |msgs|
  {
    hide Safe, Handle, Feed, Discards;
    if msgs == [] {
      assert Feed(m) + [] == Feed(m);
    } else {
      var k := |msgs| - 1;
      var init, msg := msgs[..k], msgs[k];
      FeedConservation(m, init);
      var r := Run(m, init);
      StepConserves(r, msg);
      var all, d := Feed(m) + Received(init), Discarded(m, init);
      var x := if msg.EventMsg? then [msg.e] else [];
      assert Feed(m) + Received(msgs) == all + x;
      assert all[d..] + x == (all + x)[d..];
      assert (all + x)[d..][Discards(r, msg)..] == (all + x)[d + Discards(r, msg)..];
    }
  }

  /** What a trim leaves of the feed starts at its newest marker, when that is not already the first. */
  lemma TrimKeepsFromMarker(m: Model)
    ensures var n := Trim(m);
            && n.allEvents == m.allEvents[|m.allEvents| - |n.allEvents|..]
            && ((exists i :: 0 < i < |m.allEvents| && m.allEvents[i].IsMarker()) ==>
                  n.allEvents != [] && n.allEvents[0].IsMarker()
                  && forall j :: 0 < j < |n.allEvents| ==> !n.allEvents[j].IsMarker())
            && ((forall i :: 0 < i < |m.allEvents| ==> !m.allEvents[i].IsMarker()) ==> n.allEvents == m.allEvents)
  {
  }

  // ---- pausing ----

  /** p is paused and u never was: p's pause buffer is all that tells their feeds apart. */
  ghost predicate SameButPaused(p: Model, u: Model) {
    && p.paused && !u.paused
    && Feed(p) == u.allEvents && u.pending == []
    && p.tables == u.tables && p.active == u.active && p.filterCursor == u.filterCursor
    && p.focus == u.focus && p.confirmClear == u.confirmClear && p.showHelp == u.showHelp
  }

  /** The messages a pause hides nothing from: all but the pause key itself, and a trim while an
      event that would move its marker waits in the buffer. */
  predicate Undisturbed(p: Model, msg: Msg) {
    && !InFeed(p, msg, Space)
    && (InFeed(p, msg, ShiftM) ==> TrimAgrees(p))
  }

  predicate NoMarker(events: seq<Event>) {
    forall i :: 0 <= i < |events| ==> !events[i].IsMarker()
  }

  /** No marker is waiting, or the feed is empty and only the first waiting item is one. */
  predicate TrimAgrees(p: Model) {
    NoMarker(p.pending) || (p.allEvents == [] && NoMarker(p.pending[1..]))
  }

  lemma LastMarkerIs(events: seq<Event>, k: int)
    requires -1 <= k < |events| && (k >= 0 ==> events[k].IsMarker())
    requires forall j :: k < j < |events| ==> !events[j].IsMarker()
    ensures LastMarker(events) == k
  {
  }

  lemma LastMarkerAppend(a: seq<Event>, b: seq<Event>)
    ensures LastMarker(a + b) == if NoMarker(b) then LastMarker(a) else |a| + LastMarker(b)
    ensures NoMarker(b) <==> LastMarker(b) == -1
  {
    hide PrevMarker;
    if NoMarker(b) {
      LastMarkerIs(b, -1);
      LastMarkerIs(a + b, LastMarker(a));
    } else {
      var i :| 0 <= i < |b| && b[i].IsMarker();
      assert LastMarker(b) >= i;
      LastMarkerIs(a + b, |a| + LastMarker(b));
    }
  }

  /** A trim while paused leaves the same feed as one without the pause if and only if the buffer
      holds no marker that it would have trimmed to. */
  lemma TrimWhilePaused(p: Model, u: Model)
    requires SameButPaused(p, u)
    ensures Feed(Trim(p)) == Trim(u).allEvents <==> TrimAgrees(p)
  {
    hide LastMarker;
    LastMarkerAppend(p.allEvents, p.pending);
    assert u.allEvents == p.allEvents + p.pending;
    var a, b := LastMarker(p.allEvents), LastMarker(u.allEvents);
    assert |Feed(Trim(p))| == |u.allEvents| - Max(0, a);
    assert |Trim(u).allEvents| == |u.allEvents| - Max(0, b);
    if NoMarker(p.pending) {
      if a > 0 {
        assert Feed(Trim(p)) == u.allEvents[a..];
      }
    } else {
      assert b == |p.allEvents| + LastMarker(p.pending);
      FirstOnly(p.pending);
    }
  }

  lemma FirstOnly(events: seq<Event>)
    requires !NoMarker(events)
    ensures LastMarker(events) == 0 <==> NoMarker(events[1..])
    ensures LastMarker(events) >= 0
  {
    hide PrevMarker;
    LastMarkerAppend(events[..1], events[1..]);
    assert events == events[..1] + events[1..];
    LastMarkerAppend([], events);
    assert [] + events == events;
  }

  lemma EventWhilePaused(p: Model, u: Model, e: Event)
    requires SameButPaused(p, u)
    ensures SameButPaused(OnEvent(p, e), OnEvent(u, e))
  {
    RegisterFrame(p, u, e);
    hide Visible, Register;
    assert Feed(p) + [e] == Feed(OnEvent(p, e));
  }

  lemma RegisterFrame(p: Model, u: Model, e: Event)
    ensures var n := Register(p, e); n == p.(tables := n.tables, active := n.active)
    ensures var n := Register(u, e); n == u.(tables := n.tables, active := n.active)
    ensures p.tables == u.tables && p.active == u.active ==>
              Register(p, e).tables == Register(u, e).tables && Register(p, e).active == Register(u, e).active
  {
    hide AddTable;
  }

  lemma FeedKeyWhilePaused(p: Model, u: Model, key: Key)
    requires InRange(p) && InRange(u) && SameButPaused(p, u)
    requires !key.Space? && (key.ShiftM? ==> TrimAgrees(p))
    ensures SameButPaused(FeedKey(p, key), FeedKey(u, key))
  {
    if key.ShiftM? {
      hide Visible, LastMarker, TrimAgrees;
      TrimWhilePaused(p, u);
      TrimFrame(p);
      TrimFrame(u);
    } else {
      FeedKeyFrame(p, key);
      FeedKeyFrame(u, key);
      hide FeedKey;
    }
  }

  lemma FilterKeyWhilePaused(p: Model, u: Model, key: Key)
    requires InRange(p) && InRange(u) && SameButPaused(p, u)
    ensures SameButPaused(FilterKey(p, key), FilterKey(u, key))
  {
    FilterKeyFrame(p, key);
    FilterKeyFrame(u, key);
    hide FilterKey;
  }

  lemma StepWhilePaused(p: Model, u: Model, msg: Msg)
    requires Safe(p) && Safe(u) && SameButPaused(p, u) && Undisturbed(p, msg)
    ensures InRange(p) && InRange(u) && SameButPaused(Handle(p, msg), Handle(u, msg))
  {
    SafeInRange(p);
    SafeInRange(u);
    hide Safe, InRange, FeedKey, FilterKey, TrimAgrees;
    if msg.EventMsg? {
      EventWhilePaused(p, u, msg.e);
    } else if msg.KeyMsg? && !p.confirmClear && !p.showHelp {
      if p.focus.FocusFeed? {
        FeedKeyWhilePaused(p, u, msg.key);
      } else {
        FilterKeyWhilePaused(p, u, msg.key);
      }
    }
  }

  ghost predicate UndisturbedRun(p: Model, msgs: seq<Msg>)
    requires Safe(p) && forall i :: 0 <= i < |msgs| ==> MsgNamed(msgs[i])
    decreases |msgs|
  {
    msgs == [] ||
    (UndisturbedRun(p, msgs[..|msgs| - 1]) && Undisturbed(Run(p, msgs[..|msgs| - 1]), msgs[|msgs| - 1]))
  }

  lemma {:induction false} RunWhilePaused(p: Model, u: Model, msgs: seq<Msg>)
    requires Safe(p) && Safe(u) && SameButPaused(p, u)
    requires forall i :: 0 <= i < |msgs| ==> MsgNamed(msgs[i])
    requires UndisturbedRun(p, msgs)
    ensures SameButPaused(Run(p, msgs), Run(u, msgs))
    decreases |msgs|
  {
    hide Safe, SameButPaused, Handle, Undisturbed;
    if msgs != [] {
      var k := |msgs| - 1;
      RunWhilePaused(p, u, msgs[..k]);
      StepWhilePaused(Run(p, msgs[..k]), Run(u, msgs[..k]), msgs[k]);
    }
  }

  /** Pausing, taking any messages, then resuming gives the feed, the tables and the filter of never
      having paused. Clears, filter changes and cursor keys may come in between. */
  lemma PauseTransparency(m: Model, msgs: seq<Msg>)
    requires Safe(m) && InFeed(m, KeyMsg(Space), Space) && !m.paused
    requires forall i :: 0 <= i < |msgs| ==> MsgNamed(msgs[i])
    ensures Safe(Toggle(m))
    ensures UndisturbedRun(Toggle(m), msgs) ==>
              var p, u := Run(Toggle(m), msgs), Run(m, msgs);
              && InFeed(p, KeyMsg(Space), Space) == InFeed(u, KeyMsg(Space), Space)
              && Toggle(p).allEvents == u.allEvents && Toggle(p).pending == [] && !Toggle(p).paused
              && Toggle(p).tables == u.tables && Toggle(p).active == u.active
  {
    var q := Toggle(m);
    assert q == m.(paused := true);
    assert Feed(q) == m.allEvents;
    if UndisturbedRun(q, msgs) {
      RunWhilePaused(q, m, msgs);
      var p, u := Run(q, msgs), Run(m, msgs);
      hide Safe;
      assert p.pending == [] ==> Feed(p) == p.allEvents;
    }
  }

  /** Without the side condition it fails: a trim while a marker waits keeps more than it would have. */
  lemma TrimWhilePausedDiffers(e: Event, marker: Event)
    requires !e.IsMarker() && marker.IsMarker()
    ensures var m := NewWithEvents([]).(allEvents := [e]);
            var p, u := m.(paused := true, pending := [marker]), m.(allEvents := [e, marker]);
            && SameButPaused(p, u)
            && Toggle(Trim(p)).allEvents == [e, marker] && Trim(u).allEvents == [marker]
  {
    hide Visible;
    var m := NewWithEvents([]).(allEvents := [e]);
    var p, u := m.(paused := true, pending := [marker]), m.(allEvents := [e, marker]);
    assert Feed(p) == [e, marker];
    assert LastMarker([e]) == -1;
    assert LastMarker([e, marker]) == 1;
    assert u.allEvents[1..] == [marker];
  }

  // ---- the cursor ----

  /** Live scrolling: a new item moves the cursor only when it is within the last two of the grown
      view, and then to its end; otherwise the selected item stays the same. */
  lemma EventKeepsSelection(m: Model, e: Event)
    requires Safe(m) && Named(e) && !m.paused
    ensures InRange(m)
    ensures var n := Handle(m, EventMsg(e));
            && m.View() <= n.View() && |n.View()| <= |m.View()| + 1
            && (m.cursor + 2 < |n.View()| ==> n.cursor == m.cursor && n.View()[n.cursor] == m.View()[m.cursor])
            && (|n.View()| <= m.cursor + 2 ==> n.cursor == Max(0, |n.View()| - 1))
            && (m.cursor == |m.View()| - 1 ==> n.cursor == |n.View()| - 1)
  {
    hide Visible, Passes, Register, InRange, Safe;
    SafeInRange(m);
    EventGrowsView(m, e);
  }

  lemma EventGrowsView(m: Model, e: Event)
    requires Safe(m) && Named(e) && !m.paused
    ensures 0 <= m.cursor < Max(1, |m.View()|)
    ensures var n := OnEvent(m, e);
            && m.View() <= n.View() && |n.View()| <= |m.View()| + 1
            && n.cursor == if m.cursor >= |n.View()| - 2 then Max(0, |n.View()| - 1) else m.cursor
  {
    RegisterKeeps(m, e);
    var r := Register(m, e);
    hide Visible, Passes, Register;
    ViewAppend(r.allEvents, e, r.active);
  }

  /** From a marker with another one after it, "]" then "[" comes back. */
  lemma MarkerJumpsReturn(m: Model)
    requires Safe(m) && m.cursor < |m.View()| && m.View()[m.cursor].IsMarker()
    requires exists i :: m.cursor < i < |m.View()| && m.View()[i].IsMarker()
    ensures InRange(m) && InRange(FeedKey(m, RightBracket))
    ensures m.cursor < FeedKey(m, RightBracket).cursor
    ensures FeedKey(FeedKey(m, RightBracket), LeftBracket).cursor == m.cursor
  {
    hide Visible;
    var view := m.View();
    var i :| m.cursor < i < |view| && view[i].IsMarker();
    var k := NextMarker(view, m.cursor + 1);
    assert k <= i;
    var l := PrevMarker(view, k);
    assert l >= m.cursor;
    assert !(m.cursor < l);
  }

  /** Toggling a table off and on again restores the filter and the view. */
  lemma ToggleTwice(m: Model)
    requires Safe(m) && m.tables != []
    ensures InRange(m) && InRange(ToggleTable(m))
    ensures var n := ToggleTable(ToggleTable(m)); n.active == m.active && n.View() == m.View()
  {
    hide Visible;
    var t := m.tables[m.filterCursor];
    assert t in m.active;
    var a := ToggleTable(m);
    assert a.tables == m.tables && a.filterCursor == m.filterCursor;
    assert ToggleTable(a).active == m.active;
  }

  lemma StepsReturn(m: Model)
    requires Safe(m)
    ensures InRange(m) && InRange(FeedKey(m, KeyJ)) && InRange(FeedKey(m, KeyK))
    ensures m.cursor + 1 < |m.View()| ==> FeedKey(FeedKey(m, KeyJ), KeyK) == m != FeedKey(m, KeyJ)
    ensures m.cursor > 0 ==> FeedKey(FeedKey(m, KeyK), KeyJ) == m != FeedKey(m, KeyK)
  {
    hide Visible, PrevMarker, NextMarker, TablesOk, Known;
  }

  lemma EndsStop(m: Model)
    requires Safe(m)
    ensures InRange(m) && InRange(FeedKey(m, KeyG)) && InRange(FeedKey(m, ShiftG))
    ensures FeedKey(FeedKey(m, ShiftG), KeyJ) == FeedKey(m, ShiftG)
    ensures FeedKey(FeedKey(m, KeyG), KeyK) == FeedKey(m, KeyG)
  {
    hide Visible, PrevMarker, NextMarker, TablesOk, Known;
  }

  /** The cursor keys walk the view one item at a time and back, and stop where the jumps to both ends
      lead. */
  lemma CursorKeys(m: Model)
    requires Safe(m)
    ensures InRange(m) && InRange(FeedKey(m, KeyJ)) && InRange(FeedKey(m, KeyK))
    ensures InRange(FeedKey(m, KeyG)) && InRange(FeedKey(m, ShiftG))
    ensures m.cursor + 1 < |m.View()| ==> FeedKey(FeedKey(m, KeyJ), KeyK) == m != FeedKey(m, KeyJ)
    ensures m.cursor > 0 ==> FeedKey(FeedKey(m, KeyK), KeyJ) == m != FeedKey(m, KeyK)
    ensures FeedKey(FeedKey(m, ShiftG), KeyJ) == FeedKey(m, ShiftG)
    ensures FeedKey(FeedKey(m, KeyG), KeyK) == FeedKey(m, KeyG)
  {
    hide FeedKey, Safe, InRange;
    StepsReturn(m);
    EndsStop(m);
  }

  // ---- the table filter ----

  predicate InSidebar(m: Model, msg: Msg, key: Key) {
    msg == KeyMsg(key) && !m.confirmClear && !m.showHelp && m.focus.FocusFilter?
  }

  /** Known tables keep their setting and new ones start enabled. */
  ghost predicate FilterGrows(a: map<string, bool>, b: map<string, bool>) {
    && (forall t :: t in a ==> t in b && b[t] == a[t])
    && (forall t :: t in b && t !in a ==> b[t])
  }

  lemma EventActive(m: Model, e: Event)
    ensures OnEvent(m, e).active == Register(m, e).active
  {
    hide Register, Visible;
  }

  lemma EventFilter(m: Model, e: Event)
    requires TablesOk(m.tables, m.active) && Named(e)
    ensures FilterGrows(m.active, OnEvent(m, e).active)
  {
    hide Register, OnEvent, TablesOk;
    EventActive(m, e);
    RegisterTables(m, e);
    RegisterEnables(m, e);
  }

  lemma RegisterEnables(m: Model, e: Event)
    ensures forall t :: t in Register(m, e).active && t !in m.active ==> NamesTable(e) && t == e.table
  {
  }

  lemma KeyFilter(m: Model, key: Key)
    requires InRange(m) && (m.pending != [] ==> m.paused)
    ensures OnKey(m, key).active
            == if InSidebar(m, KeyMsg(key), Space) then ToggleTable(m).active else m.active
  {
    hide FeedKey, FilterKey, InRange, Visible, ToggleTable;
    if !m.confirmClear && !m.showHelp {
      FeedKeyFilter(m, key);
      FilterKeyFrame(m, key);
    }
  }

  lemma StepFilter(m: Model, msg: Msg)
    requires Safe(m) && MsgNamed(msg)
    ensures InRange(m)
    ensures !InSidebar(m, msg, Space) ==> FilterGrows(m.active, Handle(m, msg).active)
    ensures InSidebar(m, msg, Space) && m.tables != [] ==>
              var t := m.tables[m.filterCursor];
              t in m.active && Handle(m, msg).active == m.active[t := !m.active[t]]
  {
    SafeInRange(m);
    assert m.pending != [] ==> m.paused;
    assert TablesOk(m.tables, m.active);
    assert m.tables != [] ==> m.tables[m.filterCursor] in m.active;
    hide TablesOk, Safe, InRange, OnKey, OnEvent, ToggleTable;
    if msg.EventMsg? {
      EventFilter(m, msg.e);
    } else if msg.KeyMsg? {
      KeyFilter(m, msg.key);
      ToggleTableFrame(m);
    }
  }

  lemma FeedKeyFilter(m: Model, key: Key)
    requires InRange(m) && (m.pending != [] ==> m.paused)
    ensures FeedKey(m, key).active == m.active
  {
    hide Visible, PrevMarker, NextMarker;
    if key.ShiftM? {
      TrimFrame(m);
    } else if key.Space? {
      ToggleFrame(m);
    } else {
      FeedKeyFrame(m, key);
    }
  }

  ghost predicate NoToggles(m: Model, msgs: seq<Msg>)
    requires Safe(m) && forall i :: 0 <= i < |msgs| ==> MsgNamed(msgs[i])
    decreases |msgs|
  {
    msgs == [] ||
    (NoToggles(m, msgs[..|msgs| - 1]) && !InSidebar(Run(m, msgs[..|msgs| - 1]), msgs[|msgs| - 1], Space))
  }

  /** Over any run a table stays shown or hidden as it was until the sidebar's toggle is used, and a
      table first seen in between is shown. */
  lemma {:induction false} FilterChangesOnlyByToggle(m: Model, msgs: seq<Msg>)
    requires Safe(m) && forall i :: 0 <= i < |msgs| ==> MsgNamed(msgs[i])
    ensures NoToggles(m, msgs) ==> FilterGrows(m.active, Run(m, msgs).active)
    decreases |msgs|
  {
    hide Safe, Handle;
    if msgs != [] && NoToggles(m, msgs) {
      var k := |msgs| - 1;
      FilterChangesOnlyByToggle(m, msgs[..k]);
      StepFilter(Run(m, msgs[..k]), msgs[k]);
    }
  }
}
