/** The terminal UI model as internal/tui writes it, proved against TuiSpec. */
module Tui {
  import opened Seqs
  import opened Events
  import Spec = TuiSpec

  datatype Cmd = NoCmd | Quit

  method AddTable(tables: seq<string>, name: string) returns (r: seq<string>)
    ensures r == Spec.AddTable(tables, name)
    ensures name in tables ==> r == tables
    ensures name !in tables ==> r == tables + [name]
  {
    for i := 0 to |tables|
      invariant name !in tables[..i]
    {
      if tables[i] == name {
        return tables;
      }
    }
    return tables + [name];
  }

  method FilterEvents(events: seq<Event>, active: map<string, bool>) returns (out: seq<Event>)
    ensures out == Spec.Visible(events, active)
  {
    if |active| == 0 {
      return events;
    }
    out := [];
    for i := 0 to |events|
      invariant out == Spec.Filtered(events[..i], active)
    {
      var e := events[i];
      assert events[..i + 1][..i] == events[..i];
      if !e.IsDBEvent() {
        out := out + [e];
        continue;
      }
      if e.table in active && active[e.table] {
        out := out + [e];
      }
    }
    assert events[..|events|] == events;
  }

  /** The preload loop of NewWithEvents. */
  method Preload(events: seq<Event>) returns (all: seq<Event>, tables: seq<string>, active: map<string, bool>)
    ensures all == events && tables == Spec.TablesOf(events) && active == Spec.NewWithEvents(events).active
  {
    all, tables, active := [], [], map[];
    assert Spec.TablesOf(events[..0]) == [];
    hide Spec.AddTable, Spec.TablesOf;
    for i := 0 to |events|
      invariant all == events[..i]
      invariant tables == Spec.TablesOf(events[..i]) && active == Spec.NewWithEvents(events[..i]).active
    {
      var e := events[i];
      assert events[..i + 1][..i] == events[..i];
      Spec.TablesGrow(events[..i + 1]);
      all := all + [e];
      if e.IsDBEvent() && e.table != "" {
        tables := AddTable(tables, e.table);
        active := active[e.table := true];
      }
    }
    assert events[..|events|] == events;
  }

  class Model {
    var allEvents: seq<Event>
    var tables: seq<string>
    var active: map<string, bool>
    var cursor: int
    var expanded: bool
    var paused: bool
    var pending: seq<Event>
    var focus: Spec.Focus
    var filterCursor: int
    var confirmClear: bool
    var showHelp: bool
    var width: int
    var height: int

    /** The fields as one value. */
    ghost function Value(): Spec.Model
      reads this
    {
      Spec.Model(allEvents, tables, active, cursor, expanded, paused, pending, focus, filterCursor,
                 confirmClear, showHelp, width, height)
    }

    constructor NewWithEvents(events: seq<Event>)
      ensures Value() == Spec.NewWithEvents(events)
    {
      var all, names, on := Preload(events);
      allEvents, tables, active := all, names, on;
      expanded, paused, pending, focus, filterCursor := false, false, [], Spec.FocusFeed, 0;
      confirmClear, showHelp, width, height := false, false, 0, 0;
      cursor := if |all| > 0 then |all| - 1 else 0;
    }

    method VisibleEvents() returns (view: seq<Event>)
      ensures view == Value().View()
    {
      view := FilterEvents(allEvents, active);
    }

    method Update(msg: Spec.Msg) returns (cmd: Cmd)
      requires Spec.InRange(Value())
      modifies this
      ensures Value() == Spec.Handle(old(Value()), msg)
      ensures cmd.Quit? <==> (msg == Spec.KeyMsg(Spec.KeyQ) || msg == Spec.KeyMsg(Spec.CtrlC)) && !old(confirmClear) && !old(showHelp)
    {
      hide Spec.FeedKey, Spec.FilterKey, Spec.OnEvent, Spec.InRange;
      cmd := NoCmd;
      match msg {
        case WindowSize(w, h) =>
          width := w;
          height := h;
        case EventMsg(e) =>
          OnEvent(e);
        case KeyMsg(key) =>
          if confirmClear {
            if key.KeyC? {
              allEvents := [];
              pending := [];
              cursor := 0;
              expanded := false;
            }
            confirmClear := false;
            return;
          }
          if showHelp {
            showHelp := false;
            return;
          }
          match focus {
            case FocusFeed => cmd := UpdateFeed(key);
            case FocusFilter => cmd := UpdateFilter(key);
          }
        case OtherMsg =>
      }
    }

    method OnEvent(e: Event)
      modifies this
      ensures Value() == Spec.OnEvent(old(Value()), e)
    {
      hide Spec.Visible, Spec.Register;
      RegisterTable(e);
      if paused {
        pending := pending + [e];
      } else {
        allEvents := allEvents + [e];
        var visible := VisibleEvents();
        if cursor >= |visible| - 2 {
          cursor := Max(0, |visible| - 1);
        }
      }
    }

    method RegisterTable(e: Event)
      modifies `tables, `active
      ensures Value() == Spec.Register(old(Value()), e)
    {
      hide Spec.AddTable;
      if e.IsDBEvent() && e.table != "" {
        tables := AddTable(tables, e.table);
        if e.table !in active {
          active := active[e.table := true];
        }
      }
    }

    method UpdateFeed(key: Spec.Key) returns (cmd: Cmd)
      requires Spec.InRange(Value())
      modifies this
      ensures Value() == Spec.FeedKey(old(Value()), key)
      ensures cmd == if key.KeyQ? || key.CtrlC? then Quit else NoCmd
    {
      assert 0 <= cursor <= |Value().View()|;
      hide Spec.InRange, Spec.Visible, Spec.Trim, Spec.Toggle, Spec.PrevMarker, Spec.NextMarker;
      var visible := VisibleEvents();
      cmd := NoCmd;
      match key {
        case KeyQ => cmd := Quit;
        case CtrlC => cmd := Quit;
        case KeyJ => Scroll(key, visible);
        case Down => Scroll(key, visible);
        case KeyK => Scroll(key, visible);
        case Up => Scroll(key, visible);
        case KeyG => Scroll(key, visible);
        case ShiftG => Scroll(key, visible);
        case Enter => if |visible| > 0 { expanded := !expanded; }
        case Space => TogglePause();
        case KeyF =>
          focus := Spec.FocusFilter;
          filterCursor := 0;
        case KeyC => confirmClear := true;
        case Question => showHelp := true;
        case LeftBracket => JumpBack(visible);
        case RightBracket => JumpForward(visible);
        case ShiftM => TrimToMarker();
        case _ =>
      }
    }

    /** The keys that only move the cursor. */
    method Scroll(key: Spec.Key, visible: seq<Event>)
      requires Spec.InRange(Value()) && visible == Value().View()
      requires key.KeyJ? || key.Down? || key.KeyK? || key.Up? || key.KeyG? || key.ShiftG?
      modifies `cursor, `expanded
      ensures Value() == Spec.FeedKey(old(Value()), key)
    {
      hide Spec.InRange, Spec.Visible, Spec.Trim, Spec.Toggle, Spec.PrevMarker, Spec.NextMarker;
      match key {
        case KeyJ => if cursor < |visible| - 1 { cursor := cursor + 1; }
        case Down => if cursor < |visible| - 1 { cursor := cursor + 1; }
        case KeyK => if cursor > 0 { cursor := cursor - 1; }
        case Up => if cursor > 0 { cursor := cursor - 1; }
        case KeyG =>
          cursor := 0;
          expanded := false;
        case ShiftG => cursor := Max(0, |visible| - 1);
        case _ =>
      }
    }

    /** Pause, or resume: the waiting events join the feed and the cursor moves to the newest. */
    method TogglePause()
      modifies this
      ensures Value() == Spec.Toggle(old(Value()))
    {
      hide Spec.Visible;
      paused := !paused;
      if !paused && |pending| > 0 {
        allEvents := allEvents + pending;
        pending := [];
        var view := VisibleEvents();
        cursor := Max(0, |view| - 1);
      }
    }

    /** The "[" scan, downwards from just below the cursor. */
    method JumpBack(visible: seq<Event>)
      requires 0 <= cursor <= |visible|
      modifies `cursor, `expanded
      ensures var k := Spec.PrevMarker(visible, old(cursor));
              cursor == (if k >= 0 then k else old(cursor)) && expanded == (k < 0 && old(expanded))
    {
      var i := cursor - 1;
      while i >= 0
        invariant -1 <= i < |visible|
        invariant cursor == old(cursor) && expanded == old(expanded)
        invariant Spec.PrevMarker(visible, cursor) == Spec.PrevMarker(visible, i + 1)
      {
        if visible[i].IsMarker() {
          cursor := i;
          expanded := false;
          break;
        }
        i := i - 1;
      }
    }

    /** The "]" scan, upwards from just above the cursor. */
    method JumpForward(visible: seq<Event>)
      requires 0 <= cursor <= |visible|
      modifies `cursor, `expanded
      ensures var k := Spec.NextMarker(visible, old(cursor) + 1);
              cursor == (if k < |visible| then k else old(cursor)) && expanded == (k == |visible| && old(expanded))
    {
      var i := cursor + 1;
      while i < |visible|
        invariant 0 <= i
        invariant cursor == old(cursor) && expanded == old(expanded)
        invariant Spec.NextMarker(visible, cursor + 1) == Spec.NextMarker(visible, i)
      {
        if visible[i].IsMarker() {
          cursor := i;
          expanded := false;
          break;
        }
        i := i + 1;
      }
    }

    /** The "M" scan, downwards from the newest event. */
    method TrimToMarker()
      modifies this
      ensures Value() == Spec.Trim(old(Value()))
    {
      var lastMarkerIdx := -1;
      var i := |allEvents| - 1;
      while i >= 0
        invariant -1 <= i < |allEvents| && lastMarkerIdx == -1
        invariant Value() == old(Value())
        invariant Spec.LastMarker(allEvents) == Spec.PrevMarker(allEvents, i + 1)
      {
        if allEvents[i].IsMarker() {
          lastMarkerIdx := i;
          break;
        }
        i := i - 1;
      }
      if lastMarkerIdx > 0 {
        allEvents := allEvents[lastMarkerIdx..];
        cursor := 0;
        expanded := false;
      }
    }

    method UpdateFilter(key: Spec.Key) returns (cmd: Cmd)
      requires Spec.InRange(Value())
      modifies this
      ensures Value() == Spec.FilterKey(old(Value()), key)
      ensures cmd == if key.KeyQ? || key.CtrlC? then Quit else NoCmd
    {
      hide Spec.Visible;
      cmd := NoCmd;
      match key {
        case KeyQ => cmd := Quit;
        case CtrlC => cmd := Quit;
        case KeyF => focus := Spec.FocusFeed;
        case Esc => focus := Spec.FocusFeed;
        case KeyJ => if filterCursor < |tables| - 1 { filterCursor := filterCursor + 1; }
        case Down => if filterCursor < |tables| - 1 { filterCursor := filterCursor + 1; }
        case KeyK => if filterCursor > 0 { filterCursor := filterCursor - 1; }
        case Up => if filterCursor > 0 { filterCursor := filterCursor - 1; }
        case Space =>
          if |tables| > 0 {
            var t := tables[filterCursor];
            active := active[t := !(t in active && active[t])];
            var visible := VisibleEvents();
            if cursor >= |visible| {
              cursor := Max(0, |visible| - 1);
            }
          }
        case _ =>
      }
    }
  }
}
