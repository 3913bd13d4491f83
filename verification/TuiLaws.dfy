/** What the keys do over runs of messages, read off the screen: which item is selected, which items
    are shown, which panel listens. */
module TuiLaws {
  import opened Seqs
  import opened Events
  import opened TuiSpec
  import opened TuiProps

  /** The same key, n times. */
  function Presses(key: Key, n: nat): (r: seq<Msg>)
    ensures |r| == n && forall i :: 0 <= i < n ==> r[i] == KeyMsg(key)
  {
    seq(n, i => KeyMsg(key))
  }

  function Arrivals(events: seq<Event>): (r: seq<Msg>)
    ensures |r| == |events| && forall i :: 0 <= i < |events| ==> r[i] == EventMsg(events[i])
  {
    seq(|events|, i requires 0 <= i < |events| => EventMsg(events[i]))
  }

  predicate AllMsgsNamed(msgs: seq<Msg>) {
    forall i :: 0 <= i < |msgs| ==> MsgNamed(msgs[i])
  }

  lemma RunSnoc(m: Model, msgs: seq<Msg>, msg: Msg)
    requires Safe(m) && AllMsgsNamed(msgs + [msg])
    ensures AllMsgsNamed(msgs) && MsgNamed(msg)
    ensures InRange(Run(m, msgs)) && Run(m, msgs + [msg]) == Handle(Run(m, msgs), msg)
  {
    hide Safe, InRange, Handle;
    var all := msgs + [msg];
    assert all[..|msgs|] == msgs && all[|msgs|] == msg;
    forall i | 0 <= i < |msgs| ensures MsgNamed(msgs[i]) {
      assert all[i] == msgs[i];
    }
    SafeInRange(Run(m, msgs));
  }

  lemma RunOne(m: Model, msg: Msg)
    requires Safe(m) && MsgNamed(msg)
    ensures InRange(m) && Run(m, [msg]) == Handle(m, msg)
  {
    hide Safe, InRange, Handle;
    assert [msg] == [] + [msg];
    RunSnoc(m, [], msg);
  }

  lemma {:induction false} RunAppend(m: Model, a: seq<Msg>, b: seq<Msg>)
    requires Safe(m) && AllMsgsNamed(a) && AllMsgsNamed(b)
    ensures AllMsgsNamed(a + b)
    ensures Run(m, a + b) == Run(Run(m, a), b)
    decreases |b|
  {
    hide Safe, InRange, Handle, MsgNamed;
    if b == [] {
      assert a + b == a;
    } else {
      var k := |b| - 1;
      RunAppend(m, a, b[..k]);
      assert a + b == (a + b[..k]) + [b[k]];
      assert (a + b)[..|a| + k] == a + b[..k];
    }
  }

  // ---- the cursor ----

  /** The feed listens: no overlay, focus on the feed. */
  predicate Listening(m: Model) {
    !m.confirmClear && !m.showHelp && m.focus.FocusFeed?
  }

  function Last(m: Model): int {
    Max(0, |m.View()| - 1)
  }

  lemma StepDown(m: Model, key: Key)
    requires Safe(m) && Listening(m) && (key == KeyJ || key == Down)
    ensures InRange(m) && 0 <= m.cursor <= Last(m)
    ensures Handle(m, KeyMsg(key)) == m.(cursor := Min(m.cursor + 1, Last(m)))
  {
    hide Visible, PrevMarker, NextMarker, TablesOk, Known, Trim, Toggle;
  }

  lemma StepUp(m: Model, key: Key)
    requires Safe(m) && Listening(m) && (key == KeyK || key == Up)
    ensures InRange(m) && 0 <= m.cursor
    ensures Handle(m, KeyMsg(key)) == m.(cursor := Max(0, m.cursor - 1))
  {
    hide Visible, PrevMarker, NextMarker, TablesOk, Known, Trim, Toggle;
  }

  lemma {:induction false} ScrollDown(m: Model, key: Key, n: nat)
    requires Safe(m) && Listening(m) && (key == KeyJ || key == Down)
    ensures Run(m, Presses(key, n)) == m.(cursor := Min(m.cursor + n, Last(m)))
    decreases n
  {
    hide Safe, InRange, Handle, Visible;
    StepDown(m, key);
    if n > 0 {
      ScrollDown(m, key, n - 1);
      assert Presses(key, n) == Presses(key, n - 1) + [KeyMsg(key)];
      RunSnoc(m, Presses(key, n - 1), KeyMsg(key));
      StepDown(Run(m, Presses(key, n - 1)), key);
    }
  }

  lemma {:induction false} ScrollUp(m: Model, key: Key, n: nat)
    requires Safe(m) && Listening(m) && (key == KeyK || key == Up)
    ensures Run(m, Presses(key, n)) == m.(cursor := Max(0, m.cursor - n))
    decreases n
  {
    hide Safe, InRange, Handle, Visible;
    StepUp(m, key);
    if n > 0 {
      ScrollUp(m, key, n - 1);
      assert Presses(key, n) == Presses(key, n - 1) + [KeyMsg(key)];
      RunSnoc(m, Presses(key, n - 1), KeyMsg(key));
      StepUp(Run(m, Presses(key, n - 1)), key);
    }
  }

  /** "g" is as many steps up as it takes, with the detail closed; "G" as many steps down. */
  lemma Ends(m: Model, n: nat)
    requires Safe(m) && Listening(m) && |m.View()| <= n
    ensures InRange(m)
    ensures Handle(m, KeyMsg(KeyG)) == Run(m, Presses(KeyK, n)).(expanded := false)
    ensures Handle(m, KeyMsg(ShiftG)) == Run(m, Presses(KeyJ, n))
  {
    hide Safe, InRange, Visible, Handle, Run;
    EndKeys(m);
    ScrollUp(m, KeyK, n);
    ScrollDown(m, KeyJ, n);
  }

  lemma EndKeys(m: Model)
    requires Safe(m) && Listening(m)
    ensures InRange(m) && 0 <= m.cursor < Max(1, |m.View()|)
    ensures Handle(m, KeyMsg(KeyG)) == m.(cursor := 0, expanded := false)
    ensures Handle(m, KeyMsg(ShiftG)) == m.(cursor := Last(m))
  {
    hide Visible, PrevMarker, NextMarker, TablesOk, Known, Trim, Toggle;
  }

  // ---- marker jumps ----

  /** Index d holds a marker, and there is none strictly between c and d. */
  predicate NearestMarker(view: seq<Event>, c: int, d: int) {
    && 0 <= d < |view| && view[d].kind == "marker"
    && (forall j :: c < j < d && 0 <= j ==> view[j].kind != "marker")
    && (forall j :: d < j < c && j < |view| ==> view[j].kind != "marker")
  }

  /** "]" selects the nearest marker after the selected item and closes the detail; with none after it
      the key does nothing. */
  lemma NextMarkerLaw(m: Model)
    requires Safe(m) && Listening(m)
    ensures InRange(m)
    ensures var view, n := m.View(), Handle(m, KeyMsg(RightBracket));
            if exists i :: m.cursor < i < |view| && view[i].kind == "marker"
            then n == m.(cursor := n.cursor, expanded := false) && m.cursor < n.cursor && NearestMarker(view, m.cursor, n.cursor)
            else n == m
  {
    hide Visible, TablesOk, Known, Trim, Toggle, PrevMarker;
  }

  /** "[" selects the nearest marker before the selected item, likewise. */
  lemma PrevMarkerLaw(m: Model)
    requires Safe(m) && Listening(m)
    ensures InRange(m)
    ensures var view, n := m.View(), Handle(m, KeyMsg(LeftBracket));
            if exists i :: 0 <= i < m.cursor && view[i].kind == "marker"
            then n == m.(cursor := n.cursor, expanded := false) && n.cursor < m.cursor && NearestMarker(view, m.cursor, n.cursor)
            else n == m
  {
    hide Visible, TablesOk, Known, Trim, Toggle, NextMarker;
  }

  /** "M" with a marker behind the first item leaves the feed from its newest marker on, with the
      cursor on it and the detail closed; otherwise it does nothing. */
  lemma TrimLaw(m: Model)
    requires Safe(m) && Listening(m)
    ensures InRange(m)
    ensures var n := Handle(m, KeyMsg(ShiftM));
            if exists i :: 0 < i < |m.allEvents| && m.allEvents[i].kind == "marker"
            then
              && n == m.(allEvents := n.allEvents, cursor := 0, expanded := false)
              && |n.allEvents| < |m.allEvents| && n.allEvents == m.allEvents[|m.allEvents| - |n.allEvents|..]
              && n.allEvents != [] && n.allEvents[0].kind == "marker"
              && (forall j :: 0 < j < |n.allEvents| ==> n.allEvents[j].kind != "marker")
            else n == m
  {
    hide Visible, TablesOk, Known;
  }

  // ---- panels and overlays ----

  /** From the feed: "c" asks, a second "c" clears, and any other key, a quit key too, takes it back;
      "?" shows the help, which any key closes. */
  lemma OverlayLaw(m: Model, key: Key)
    requires Safe(m) && Listening(m)
    ensures Run(m, [KeyMsg(KeyC), KeyMsg(key)])
            == if key == KeyC then m.(allEvents := [], pending := [], cursor := 0, expanded := false) else m
    ensures Run(m, [KeyMsg(Question), KeyMsg(key)]) == m
    ensures Handle(m, KeyMsg(KeyC)) == m.(confirmClear := true) && Handle(m, KeyMsg(Question)) == m.(showHelp := true)
  {
    hide Safe, InRange, Visible, PrevMarker, NextMarker, Trim, Toggle, Run;
    SafeInRange(m);
    RunTwo(m, KeyMsg(KeyC), KeyMsg(key));
    RunTwo(m, KeyMsg(Question), KeyMsg(key));
  }

  lemma RunTwo(m: Model, a: Msg, b: Msg)
    requires Safe(m) && MsgNamed(a) && MsgNamed(b)
    ensures InRange(m) && InRange(Handle(m, a)) && Run(m, [a, b]) == Handle(Handle(m, a), b)
  {
    hide Safe, InRange, Handle, Run;
    RunOne(m, a);
    assert [a, b] == [a] + [b];
    RunSnoc(m, [a], b);
  }

  /** Enter opens or closes the detail, unless nothing is shown; quit keys and keys without a meaning
      change nothing; the window size is just recorded. */
  lemma OtherKeysLaw(m: Model, w: int, h: int)
    requires Safe(m) && Listening(m)
    ensures InRange(m)
    ensures Handle(m, KeyMsg(Enter)) == if |m.View()| == 0 then m else m.(expanded := !m.expanded)
    ensures forall key :: key in {KeyQ, CtrlC, Esc, OtherKey} ==> Handle(m, KeyMsg(key)) == m
    ensures Handle(m, WindowSize(w, h)) == m.(width := w, height := h)
    ensures Handle(m, OtherMsg) == m
  {
    hide Safe, InRange, Visible, PrevMarker, NextMarker, Trim, Toggle;
    SafeInRange(m);
  }

  lemma StepTables(m: Model, key: Key)
    requires Safe(m) && m.focus.FocusFilter? && key in {KeyJ, Down, KeyK, Up}
    ensures InRange(m) && 0 <= m.filterCursor <= Max(0, |m.tables| - 1)
    ensures Handle(m, KeyMsg(key))
            == m.(filterCursor := if key in {KeyJ, Down} then Min(m.filterCursor + 1, Max(0, |m.tables| - 1))
                                  else Max(0, m.filterCursor - 1))
  {
    hide Visible, TablesOk, Known, ToggleTable;
  }

  lemma {:induction false} SidebarDown(m: Model, key: Key, n: nat)
    requires Safe(m) && m.focus.FocusFilter? && (key == KeyJ || key == Down)
    ensures Run(m, Presses(key, n)) == m.(filterCursor := Min(m.filterCursor + n, Max(0, |m.tables| - 1)))
    decreases n
  {
    hide Safe, InRange, Handle, Visible;
    StepTables(m, key);
    if n > 0 {
      SidebarDown(m, key, n - 1);
      assert Presses(key, n) == Presses(key, n - 1) + [KeyMsg(key)];
      RunSnoc(m, Presses(key, n - 1), KeyMsg(key));
      StepTables(Run(m, Presses(key, n - 1)), key);
    }
  }

  lemma {:induction false} SidebarUp(m: Model, key: Key, n: nat)
    requires Safe(m) && m.focus.FocusFilter? && (key == KeyK || key == Up)
    ensures Run(m, Presses(key, n)) == m.(filterCursor := Max(0, m.filterCursor - n))
    decreases n
  {
    hide Safe, InRange, Handle, Visible;
    StepTables(m, key);
    if n > 0 {
      SidebarUp(m, key, n - 1);
      assert Presses(key, n) == Presses(key, n - 1) + [KeyMsg(key)];
      RunSnoc(m, Presses(key, n - 1), KeyMsg(key));
      StepTables(Run(m, Presses(key, n - 1)), key);
    }
  }

  /** The keys that show or hide table n: into the sidebar, down to the table, toggle, back. */
  function ToggleKeys(n: nat, down: Key, back: Key): seq<Msg> {
    [KeyMsg(KeyF)] + Presses(down, n) + [KeyMsg(Space)] + [KeyMsg(back)]
  }

  /** Every table can be shown or hidden from the feed: that one setting is negated, and the cursor
      only moves when the view has become too short for it, and then to its end. */
  lemma SidebarLaw(m: Model, n: nat, down: Key, back: Key)
    requires Safe(m) && Listening(m) && n < |m.tables|
    requires (down == KeyJ || down == Down) && (back == KeyF || back == Esc)
    ensures m.tables[n] in m.active
    ensures var r := Run(m, ToggleKeys(n, down, back));
            && r == m.(filterCursor := n, active := m.active[m.tables[n] := !m.active[m.tables[n]]], cursor := r.cursor)
            && r.cursor == Min(m.cursor, Last(r))
  {
    hide Safe, InRange, Visible, Run, Handle, Presses;
    var keys := [KeyMsg(KeyF)] + Presses(down, n);
    var b := Run(m, keys);
    SidebarReach(m, n, down);
    RunSnoc(m, keys, KeyMsg(Space));
    SidebarToggles(b);
    var c := Run(m, keys + [KeyMsg(Space)]);
    RunSnoc(m, keys + [KeyMsg(Space)], KeyMsg(back));
    SidebarBack(c, back);
    assert Last(c) == Last(c.(focus := FocusFeed));
  }

  lemma SidebarReach(m: Model, n: nat, down: Key)
    requires Safe(m) && Listening(m) && n < |m.tables| && (down == KeyJ || down == Down)
    ensures Run(m, [KeyMsg(KeyF)] + Presses(down, n)) == m.(focus := FocusFilter, filterCursor := n)
  {
    hide Safe, InRange, Visible, Run, Handle, Presses;
    SidebarOpens(m);
    RunOne(m, KeyMsg(KeyF));
    SidebarDown(Run(m, [KeyMsg(KeyF)]), down, n);
    RunAppend(m, [KeyMsg(KeyF)], Presses(down, n));
  }

  lemma SidebarBack(m: Model, key: Key)
    requires Safe(m) && m.focus.FocusFilter? && (key == KeyF || key == Esc)
    ensures InRange(m) && Handle(m, KeyMsg(key)) == m.(focus := FocusFeed)
  {
    hide Visible;
  }

  lemma SidebarOpens(m: Model)
    requires Safe(m) && Listening(m)
    ensures InRange(m) && Handle(m, KeyMsg(KeyF)) == m.(focus := FocusFilter, filterCursor := 0)
  {
    hide Visible, PrevMarker, NextMarker, Trim, Toggle;
  }

  lemma SidebarToggles(m: Model)
    requires Safe(m) && m.focus.FocusFilter? && m.tables != []
    ensures InRange(m) && m.tables[m.filterCursor] in m.active
    ensures var t := m.tables[m.filterCursor]; var r := Handle(m, KeyMsg(Space));
            r == m.(active := m.active[t := !m.active[t]], cursor := Min(m.cursor, Last(r)))
  {
    hide Visible;
  }

  /** The sidebar's other keys: back to the feed, or nothing. */
  lemma SidebarKeys(m: Model)
    requires Safe(m) && m.focus.FocusFilter?
    ensures InRange(m)
    ensures forall key :: key in {KeyF, Esc} ==> Handle(m, KeyMsg(key)) == m.(focus := FocusFeed)
    ensures forall key :: key in {KeyQ, CtrlC, KeyG, ShiftG, Enter, KeyC, Question, LeftBracket, RightBracket, ShiftM, OtherKey} ==>
              Handle(m, KeyMsg(key)) == m
    ensures m.tables == [] ==> Handle(m, KeyMsg(Space)) == m
  {
    hide Visible;
  }

  // ---- arriving events ----

  /** One of the events is a row change of table t. */
  ghost predicate Mentions(events: seq<Event>, t: string) {
    exists i :: 0 <= i < |events| && events[i].table == t && (events[i].kind == "" || events[i].kind == "event")
  }

  /** Every table mentioned is listed once, after those listed before, and shown unless it was hidden. */
  ghost predicate TablesSeen(m: Model, events: seq<Event>, r: Model) {
    && m.tables <= r.tables && Distinct(r.tables)
    && (forall t :: t in r.tables <==> t in m.tables || Mentions(events, t))
    && (forall t :: t in r.active <==> t in r.tables)
    && FilterGrows(m.active, r.active)
  }

  /** r is m after the events have arrived: waiting if m was paused, in its feed if not. */
  ghost predicate Arrived(m: Model, events: seq<Event>, r: Model) {
    && r == m.(allEvents := r.allEvents, pending := r.pending, cursor := r.cursor, tables := r.tables, active := r.active)
    && (if m.paused
        then r.allEvents == m.allEvents && r.pending == m.pending + events && r.cursor == m.cursor && r.View() == m.View()
        else r.allEvents == m.allEvents + events && r.pending == m.pending)
    && TablesSeen(m, events, r)
  }

  /** While the feed is paused arriving events only wait: view and cursor stay as they are. While it is
      live they join the feed in order. Either way every table they name is listed, and shown unless it
      was hidden before; nothing else changes. */
  lemma {:induction false} ArrivalLaw(m: Model, events: seq<Event>)
    requires Safe(m) && AllNamed(events)
    ensures AllMsgsNamed(Arrivals(events))
    ensures Arrived(m, events, Run(m, Arrivals(events)))
    decreases |events|
  {
    hide Safe, InRange, Handle, Arrived;
    if events == [] {
      ArrivalNone(m);
    } else {
      var k := |events| - 1;
      var init, e := events[..k], events[k];
      assert events == init + [e] && AllNamed(init);
      ArrivalLaw(m, init);
      assert Arrivals(events) == Arrivals(init) + [EventMsg(e)];
      RunSnoc(m, Arrivals(init), EventMsg(e));
      var r := Run(m, Arrivals(init));
      ArrivalOne(r, e);
      ArrivalMore(m, init, r, e, Handle(r, EventMsg(e)));
    }
  }

  lemma ArrivalNone(m: Model)
    requires Safe(m)
    ensures Arrived(m, [], m)
  {
    hide Visible;
    assert m.allEvents + [] == m.allEvents && m.pending + [] == m.pending;
  }

  lemma ArrivalOne(m: Model, e: Event)
    requires Safe(m) && Named(e)
    ensures InRange(m) && Arrived(m, [e], Handle(m, EventMsg(e)))
  {
    hide Visible, Register, Safe, InRange, TablesSeen, OnEvent;
    SafeInRange(m);
    ArrivalFields(m, e);
    RegisterSeen(m, e);
    SeenByTables(m, [e], Register(m, e), OnEvent(m, e));
  }

  lemma ArrivalFields(m: Model, e: Event)
    requires Safe(m) && Named(e)
    ensures var r := OnEvent(m, e);
            && r == m.(allEvents := r.allEvents, pending := r.pending, cursor := r.cursor, tables := r.tables, active := r.active)
            && (if m.paused
                then r.allEvents == m.allEvents && r.pending == m.pending + [e] && r.cursor == m.cursor && r.View() == m.View()
                else r.allEvents == m.allEvents + [e] && r.pending == m.pending)
            && r.tables == Register(m, e).tables && r.active == Register(m, e).active
  {
    hide Visible, Register, Safe;
    RegisterKeeps(m, e);
  }

  lemma SeenByTables(m: Model, events: seq<Event>, r: Model, n: Model)
    requires TablesSeen(m, events, r) && n.tables == r.tables && n.active == r.active
    ensures TablesSeen(m, events, n)
  {
  }

  lemma RegisterSeen(m: Model, e: Event)
    requires Safe(m) && Named(e)
    ensures TablesSeen(m, [e], Register(m, e))
  {
    hide Visible;
    assert [e][0] == e;
  }

  lemma ArrivalMore(m: Model, init: seq<Event>, r: Model, e: Event, n: Model)
    requires Arrived(m, init, r) && Arrived(r, [e], n)
    ensures Arrived(m, init + [e], n)
  {
    hide Visible, Distinct, TablesSeen;
    SeenMore(m, init, r, e, n);
    assert m.pending + init + [e] == m.pending + (init + [e]);
    assert m.allEvents + init + [e] == m.allEvents + (init + [e]);
  }

  lemma SeenMore(m: Model, init: seq<Event>, r: Model, e: Event, n: Model)
    requires TablesSeen(m, init, r) && TablesSeen(r, [e], n)
    ensures TablesSeen(m, init + [e], n)
  {
    hide Distinct;
    forall t ensures Mentions(init + [e], t) <==> Mentions(init, t) || Mentions([e], t) {
      MentionsMore(init, e, t);
    }
    hide Mentions;
  }

  lemma MentionsMore(init: seq<Event>, e: Event, t: string)
    ensures Mentions(init + [e], t) <==> Mentions(init, t) || Mentions([e], t)
  {
    var events := init + [e];
    assert events[|init|] == e == [e][0];
    if i :| 0 <= i < |init| && init[i].table == t && init[i].IsDBEvent() {
      assert events[i] == init[i];
    }
  }

  /** While live, the cursor of a reader at the end of the view stays at its end. */
  lemma {:induction false} FollowsEnd(m: Model, events: seq<Event>)
    requires Safe(m) && AllNamed(events) && !m.paused && m.cursor == Last(m)
    ensures AllMsgsNamed(Arrivals(events))
    ensures var r := Run(m, Arrivals(events)); !r.paused && r.cursor == Last(r)
    decreases |events|
  {
    hide Safe, InRange, Handle, Visible;
    if events != [] {
      var k := |events| - 1;
      var init, e := events[..k], events[k];
      FollowsEnd(m, init);
      assert Arrivals(events) == Arrivals(init) + [EventMsg(e)];
      RunSnoc(m, Arrivals(init), EventMsg(e));
      var r := Run(m, Arrivals(init));
      EventKeepsSelection(r, e);
      ArrivalOne(r, e);
    }
  }

  /** Pausing, letting events arrive and resuming: they join the feed in order and the cursor goes to the
      end of the view, or stays where it was when nothing arrived. */
  lemma PauseLaw(m: Model, events: seq<Event>)
    requires Safe(m) && Listening(m) && !m.paused && AllNamed(events)
    ensures AllMsgsNamed(Arrivals(events)) && AllMsgsNamed([KeyMsg(Space)] + Arrivals(events) + [KeyMsg(Space)])
    ensures var r := Run(m, [KeyMsg(Space)] + Arrivals(events) + [KeyMsg(Space)]);
            && r == Run(m, Arrivals(events)).(cursor := r.cursor)
            && r.cursor == if events == [] then m.cursor else Last(r)
  {
    hide Safe, InRange, Visible, Run, Handle, TablesSeen;
    var keys := [KeyMsg(Space)];
    ArrivalLaw(m, events);
    RunOne(m, KeyMsg(Space));
    PauseStarts(m);
    var p := Run(m, keys);
    ArrivalLaw(p, events);
    RunAppend(m, keys, Arrivals(events));
    RunSnoc(m, keys + Arrivals(events), KeyMsg(Space));
    SameTables(p, m, events);
    PauseEnds(Run(p, Arrivals(events)));
  }

  lemma PauseStarts(m: Model)
    requires Safe(m) && Listening(m) && !m.paused
    ensures InRange(m) && Handle(m, KeyMsg(Space)) == m.(paused := true) && m.pending == []
  {
    hide Visible, PrevMarker, NextMarker, Trim;
  }

  lemma PauseEnds(m: Model)
    requires Safe(m) && Listening(m) && m.paused
    ensures InRange(m)
    ensures var r := Handle(m, KeyMsg(Space));
            && r == m.(paused := false, allEvents := m.allEvents + m.pending, pending := [], cursor := r.cursor)
            && r.cursor == if m.pending == [] then m.cursor else Last(r)
  {
    hide Visible, PrevMarker, NextMarker, Trim;
    assert m.allEvents + [] == m.allEvents;
  }

  /** Pausing makes no difference to the tables. */
  lemma {:induction false} SameTables(p: Model, u: Model, events: seq<Event>)
    requires Safe(p) && Safe(u) && AllNamed(events) && p.tables == u.tables && p.active == u.active
    ensures AllMsgsNamed(Arrivals(events))
    ensures var a, b := Run(p, Arrivals(events)), Run(u, Arrivals(events)); a.tables == b.tables && a.active == b.active
    decreases |events|
  {
    hide Safe, InRange, Handle, Visible;
    if events != [] {
      var k := |events| - 1;
      var init, e := events[..k], events[k];
      SameTables(p, u, init);
      assert Arrivals(events) == Arrivals(init) + [EventMsg(e)];
      RunSnoc(p, Arrivals(init), EventMsg(e));
      RunSnoc(u, Arrivals(init), EventMsg(e));
      TablesOnly(Run(p, Arrivals(init)), e);
      TablesOnly(Run(u, Arrivals(init)), e);
    }
  }

  lemma TablesOnly(m: Model, e: Event)
    requires InRange(m)
    ensures var r := Handle(m, EventMsg(e));
            && r.tables == (if NamesTable(e) then AddTable(m.tables, e.table) else m.tables)
            && r.active == if NamesTable(e) && e.table !in m.active then m.active[e.table := true] else m.active
  {
    hide Visible, AddTable;
  }

  /** Preloading a feed is the same as starting empty and receiving it event by event. */
  lemma {:induction false} PreloadIsReceiving(events: seq<Event>)
    requires AllNamed(events)
    ensures Safe(NewWithEvents([])) && AllMsgsNamed(Arrivals(events))
    ensures NewWithEvents(events) == Run(NewWithEvents([]), Arrivals(events))
    decreases |events|
  {
    hide Safe, InRange, Handle, Visible, TablesOf;
    NewSafe([]);
    if events != [] {
      var k := |events| - 1;
      var init, e := events[..k], events[k];
      PreloadIsReceiving(init);
      assert Arrivals(events) == Arrivals(init) + [EventMsg(e)];
      RunSnoc(NewWithEvents([]), Arrivals(init), EventMsg(e));
      PreloadOne(events);
    }
  }

  lemma PreloadOne(events: seq<Event>)
    requires AllNamed(events) && events != []
    ensures var k := |events| - 1; var m := NewWithEvents(events[..k]);
            Safe(m) && InRange(m) && Handle(m, EventMsg(events[k])) == NewWithEvents(events)
  {
    hide Safe, InRange, Visible, TablesOf, Handle;
    var k := |events| - 1;
    var init, e := events[..k], events[k];
    var m := NewWithEvents(init);
    assert events == init + [e];
    NewSafe(init);
    StartLaw(init);
    StartLaw(events);
    ArrivalOne(m, e);
    EventKeepsSelection(m, e);
    TablesOnly(m, e);
    TablesGrow(events);
    assert m.cursor == Last(m);
    SafeTables(m);
  }

  lemma SafeTables(m: Model)
    requires Safe(m)
    ensures TablesOk(m.tables, m.active)
  {
  }

  /** The screen at the start: everything preloaded is shown and the last item selected; nothing is
      paused, opened, or waiting, and the feed listens. */
  lemma StartLaw(events: seq<Event>)
    requires AllNamed(events)
    ensures var m := NewWithEvents(events);
            && m.allEvents == events && m.View() == events && m.cursor == Max(0, |events| - 1)
            && !m.expanded && !m.paused && m.pending == [] && m.filterCursor == 0 && Listening(m)
            && m.width == 0 && m.height == 0
  {
    var m := NewWithEvents(events);
    TablesOfFacts(events);
    FilteredLength(events, m.active);
    hide TablesOf;
    forall i | 0 <= i < |events| ensures Passes(events[i], m.active) {
      if events[i].IsDBEvent() {
        assert NamesTable(events[i]) && events[i].table in m.tables;
      }
    }
  }
}
