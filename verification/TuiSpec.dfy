/** The terminal UI as a value: one update per message (internal/tui/app.go, internal/tui/filter.go).
    The cursor indexes the filtered view while the messages change the feed and the filter. */
module TuiSpec {
  import opened Seqs
  import opened Events

  datatype Focus = FocusFeed | FocusFilter

  /** The key names the model reacts to; OtherKey is any other. */
  datatype Key =
    | KeyQ | CtrlC | KeyJ | Down | KeyK | Up | KeyG | ShiftG | Enter | Space | KeyF | KeyC | Question
    | LeftBracket | RightBracket | ShiftM | Esc | OtherKey

  datatype Msg = WindowSize(width: int, height: int) | EventMsg(e: Event) | KeyMsg(key: Key) | OtherMsg

  datatype Model = Model(
    allEvents: seq<Event>, tables: seq<string>, active: map<string, bool>,
    cursor: int, expanded: bool, paused: bool, pending: seq<Event>,
    focus: Focus, filterCursor: int, confirmClear: bool, showHelp: bool,
    width: int, height: int)
  {
    function View(): seq<Event> { Visible(allEvents, active) }
  }

  // ---- the filtered view ----

  /** Only DB events can be hidden; one whose table is not in the filter map is. */
  predicate Passes(e: Event, active: map<string, bool>) {
    !e.IsDBEvent() || (e.table in active && active[e.table])
  }

  function Filtered(events: seq<Event>, active: map<string, bool>): (r: seq<Event>)
    ensures |r| <= |events|
  {
    if events == [] then []
    else
      var k := |events| - 1;
      Filtered(events[..k], active) + if Passes(events[k], active) then [events[k]] else []
  }

  /** An empty filter map hides nothing. */
  function Visible(events: seq<Event>, active: map<string, bool>): seq<Event> {
    if active == map[] then events else Filtered(events, active)
  }

  function AddTable(tables: seq<string>, name: string): seq<string> {
    if name in tables then tables else tables + [name]
  }

  predicate NamesTable(e: Event) {
    e.IsDBEvent() && e.table != ""
  }

  // ---- marker jumps ----

  /** The nearest marker below index i, or -1. */
  function PrevMarker(view: seq<Event>, i: nat): (k: int)
    requires i <= |view|
    ensures -1 <= k < i
    ensures k >= 0 ==> view[k].IsMarker()
    ensures forall j :: k < j < i ==> !view[j].IsMarker()
  {
    if i == 0 then -1 else if view[i - 1].IsMarker() then i - 1 else PrevMarker(view, i - 1)
  }

  /** The nearest marker at or above index i, or |view| when there is none. */
  function NextMarker(view: seq<Event>, i: nat): (k: int)
    ensures i < |view| ==> i <= k <= |view|
    ensures |view| <= i ==> k == |view|
    ensures k < |view| ==> view[k].IsMarker()
    ensures forall j :: i <= j < k ==> !view[j].IsMarker()
    decreases |view| - i
  {
    if |view| <= i then |view| else if view[i].IsMarker() then i else NextMarker(view, i + 1)
  }

  function LastMarker(events: seq<Event>): (k: int)
    ensures -1 <= k < |events|
    ensures k >= 0 ==> events[k].IsMarker()
    ensures forall j :: k < j < |events| ==> !events[j].IsMarker()
  {
    PrevMarker(events, |events|)
  }

  // ---- updates ----

  /** What the index expressions of the marker jump and of the filter toggle need. */
  predicate InRange(m: Model) {
    && 0 <= m.cursor <= |m.View()|
    && 0 <= m.filterCursor && (m.tables == [] || m.filterCursor < |m.tables|)
  }

  function Register(m: Model, e: Event): Model {
    if NamesTable(e)
    then m.(tables := AddTable(m.tables, e.table),
            active := if e.table in m.active then m.active else m.active[e.table := true])
    else m
  }

  function OnEvent(m: Model, e: Event): Model {
    var n := Register(m, e);
    if n.paused then n.(pending := n.pending + [e])
    else
      var r := n.(allEvents := n.allEvents + [e]);
      if r.cursor >= |r.View()| - 2 then r.(cursor := Max(0, |r.View()| - 1)) else r
  }

  function Toggle(m: Model): Model {
    var n := m.(paused := !m.paused);
    if !n.paused && n.pending != [] then
      var r := n.(allEvents := n.allEvents + n.pending, pending := []);
      r.(cursor := Max(0, |r.View()| - 1))
    else n
  }

  function Trim(m: Model): Model {
    var k := LastMarker(m.allEvents);
    if k > 0 then m.(allEvents := m.allEvents[k..], cursor := 0, expanded := false) else m
  }

  function FeedKey(m: Model, key: Key): Model
    requires InRange(m)
  {
    var view := m.View();
    match key
    case KeyJ => if m.cursor < |view| - 1 then m.(cursor := m.cursor + 1) else m
    case Down => if m.cursor < |view| - 1 then m.(cursor := m.cursor + 1) else m
    case KeyK => if m.cursor > 0 then m.(cursor := m.cursor - 1) else m
    case Up => if m.cursor > 0 then m.(cursor := m.cursor - 1) else m
    case KeyG => m.(cursor := 0, expanded := false)
    case ShiftG => m.(cursor := Max(0, |view| - 1))
    case Enter => if |view| > 0 then m.(expanded := !m.expanded) else m
    case Space => Toggle(m)
    case KeyF => m.(focus := FocusFilter, filterCursor := 0)
    case KeyC => m.(confirmClear := true)
    case Question => m.(showHelp := true)
    case LeftBracket =>
      var k := PrevMarker(view, m.cursor);
      if k >= 0 then m.(cursor := k, expanded := false) else m
    case RightBracket =>
      var k := NextMarker(view, m.cursor + 1);
      if k < |view| then m.(cursor := k, expanded := false) else m
    case ShiftM => Trim(m)
    case _ => m
  }

  function ToggleTable(m: Model): Model
    requires InRange(m)
  {
    if m.tables == [] then m
    else
      var t := m.tables[m.filterCursor];
      var n := m.(active := m.active[t := !(t in m.active && m.active[t])]);
      if n.cursor >= |n.View()| then n.(cursor := Max(0, |n.View()| - 1)) else n
  }

  function FilterKey(m: Model, key: Key): Model
    requires InRange(m)
  {
    match key
    case KeyF => m.(focus := FocusFeed)
    case Esc => m.(focus := FocusFeed)
    case KeyJ => if m.filterCursor < |m.tables| - 1 then m.(filterCursor := m.filterCursor + 1) else m
    case Down => if m.filterCursor < |m.tables| - 1 then m.(filterCursor := m.filterCursor + 1) else m
    case KeyK => if m.filterCursor > 0 then m.(filterCursor := m.filterCursor - 1) else m
    case Up => if m.filterCursor > 0 then m.(filterCursor := m.filterCursor - 1) else m
    case Space => ToggleTable(m)
    case _ => m
  }

  function Clear(m: Model): Model {
    m.(allEvents := [], pending := [], cursor := 0, expanded := false)
  }

  function OnKey(m: Model, key: Key): Model
    requires InRange(m)
  {
    if m.confirmClear then (if key.KeyC? then Clear(m) else m).(confirmClear := false)
    else if m.showHelp then m.(showHelp := false)
    else if m.focus.FocusFeed? then FeedKey(m, key)
    else FilterKey(m, key)
  }

  function Handle(m: Model, msg: Msg): Model
    requires InRange(m)
  {
    match msg
    case WindowSize(w, h) => m.(width := w, height := h)
    case EventMsg(e) => OnEvent(m, e)
    case KeyMsg(key) => OnKey(m, key)
    case OtherMsg => m
  }

  // ---- start ----

  function TablesOf(events: seq<Event>): seq<string> {
    if events == [] then []
    else
      var k := |events| - 1;
      if NamesTable(events[k]) then AddTable(TablesOf(events[..k]), events[k].table) else TablesOf(events[..k])
  }

  function NewWithEvents(events: seq<Event>): Model {
    var tables := TablesOf(events);
    Model(events, tables, map t | t in tables :: true, Max(0, |events| - 1), false, false, [],
          FocusFeed, 0, false, false, 0, 0)
  }

  /** One more event adds its table to the list and to the filter map. */
  lemma TablesGrow(events: seq<Event>)
    requires events != []
    ensures var k := |events| - 1;
            var m, n := NewWithEvents(events[..k]), NewWithEvents(events);
            && n.tables == (if NamesTable(events[k]) then AddTable(m.tables, events[k].table) else m.tables)
            && n.active == if NamesTable(events[k]) then m.active[events[k].table := true] else m.active
  {
  }
}
