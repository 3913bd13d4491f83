# dbwatch, verified

A Dafny model of the parts of dbwatch that hold state: the event store with its subscribers, the attach
protocol between daemon and client, the WAL read loop, the hand-off from the listener to the store, the
terminal UI, and the snapshot comparator with the capture that feeds it. `dafny verify dfyconfig.toml`
checks everything.

Feed items have no usable identity of their own: markers, logs and DDL items all carry ID 0. Statements
about loss, order and repetition therefore name items by their position in the store's push history.

| files | contents |
|---|---|
| `Seqs`, `StringOrder` | suffixes, order-preserving merges (`Shuffle(a, b, m)`: m is a and b interleaved), sorted listings |
| `Events`, `Channels` | feed items and filters; Go channels as objects with a queue and a closed flag |
| `StoreSpec`, `StoreProps`, `Store` | the store as a value, its laws over runs, and the ring buffer class that implements it |
| `ClientSpec`, `ClientProps`, `Client` | the attach client as a value, its law over whole streams, and the class with its handshake, read loop and local store |
| `Attach`, `AttachInv`, `AttachProps`, `AttachCounts` | every interleaving of handlers, pumps, tickers, wires, clients and other store users: safety and accounting |
| `AttachLaws`, `AttachProgress` | what each write of the daemon does, that nothing is lost while writes work, and that clients can be served, reached and dismissed |
| `LocalViews` | the two orders in which the local modes join a store |
| `ListenerSpec`, `ListenerProps`, `ListenerLaws`, `Listener` | the WAL read loop as a stream transducer, what each message means, and the classes that implement it |
| `RunnerSpec`, `RunnerProps`, `RunnerLaws`, `Runner` | `core.Run` as an interleaving, that it does its work, and its forwarder loop |
| `EndToEnd` | the hand-off and the attach protocol on one store |
| `TuiSpec`, `TuiProps`, `TuiLaws`, `Tui` | the terminal UI's update function, what runs of messages keep, what every key does, and the model class |
| `CompareSpec`, `CompareProps`, `CompareLaws`, `Compare` | the snapshot diff, its laws, what a whole report says, and the comparator's loops |
| `CaptureSpec`, `CaptureProps`, `CaptureLaws`, `Capture` | capturing with arbitrary database answers, what a capture holds, and what that gives the diff |

Code that changes state is a class or a method with loops, proved equal to a value-level step function of
the same name; the laws are lemmas about runs of those steps. What a step does is also said without its
definition, in terms of the message, key, action or report it concerns: `StoreProps.PushEffect` and its
neighbours, `ClientProps`, `AttachLaws`, `AttachProgress`, `ListenerLaws`, `RunnerLaws`, `TuiLaws`,
`CompareLaws`, `CaptureLaws`. Runs are arbitrary sequences of actions; an
action whose guard is false changes nothing. A mutex-protected method is one atomic step.

Preconditions that are the program's own: a store has at least one slot (`--buffer 0` panics on the first
push, and `StoreProps.RunPanicsIff` says that this is the only panic); every DB event names its table,
as relation names are never empty (`TuiProps.NewCursorIff` says exactly what happens at start-up without it).
Column names need not be distinct: the comparator and the capturer let the later column win, and so does
the model.

Where code and documentation differ, the model follows the code. ARCHITECTURE.md says that event IDs
increase monotonically (line 188); the counter is 64 bits wide and wraps (`ListenerProps.IdsWrap`), and
`ListenerProps.IdsIncreaseIff` gives the exact condition. It says that the listener caches
`information_schema` at start-up and retries a lost connection (lines 74 and 90); `readLoop` starts with
an empty cache and returns on the first receive error.

Results that are negative come with the condition under which they hold. `core.Run` can leave enqueued
events behind if it is cancelled while some are queued (`RunnerProps.CancelLosesQueue`), and never
otherwise (`RunnerProps.ForwarderDrain`). `onEvent` follows the store's order without DDL tracking
(`RunnerProps.CallsInStoreOrder`), and with it can break the order from every state in which an event is
pushed and not yet announced (`RunnerProps.DDLCanOvertake`). Trimming to the last marker while paused keeps
more than it would have without the pause exactly when a marker waits that it would have trimmed to
(`TuiProps.TrimWhilePaused`, `TuiProps.TrimWhilePausedDiffers`). A preloaded mix of DB events with and
without table puts the cursor out of the view (`TuiProps.NewCursorIff`, `TuiProps.NewCursorOutOfRange`).
A captured NULL count is row count minus non-NULL count from two
separate queries, so it can be negative; nothing here assumes otherwise.

## Model

| member | source | states |
|---|---|---|
| Events.MatchTables | internal/store/store.go:28-35 | the scan finds the event's table in the allow-list if and only if it is there |
| StoreSpec.BroadcastPointwise | internal/store/store.go:73-81 | the fan-out loop never panics and offers the event to each registered channel exactly once, leaving the others alone |
| StoreSpec.StepKeepsWf | internal/store/store.go:62-110 | every operation keeps registered channels distinct, in subscription order and exactly the open ones; only a push into zero slots panics |
| StoreSpec.StepKeepsInv | internal/store/store.go:62-110 | every operation keeps each subscription's matching pushes split into received, queued and dropped, in order |
| StoreProps.RunPanicsIff | internal/store/store.go:62-110 | over any run no send or close hits a closed channel; a run panics if and only if it pushes into a store of capacity 0 |
| StoreProps.HistoryIsPushes | internal/store/store.go:62-72 | ring contents and total depend on the pushes alone, never on the subscriber list |
| StoreProps.UnsubscribeEffect | internal/store/store.go:99-110 | unsubscribing closes and removes exactly that channel, keeps the others in order, and does nothing the second time or for an unknown channel |
| StoreProps.Isolation | internal/store/store.go:73-81 | deleting all reads and unsubscribes of other subscribers from any run leaves a subscriber's received, queued and dropped items unchanged |
| StoreProps.IsolationBetween | internal/store/store.go:73-81 | two runs that differ only in what the other subscribers do are the same to a subscriber |
| StoreProps.Conservation | internal/store/store.go:73-96 | matching pushes of a subscription's lifetime split exactly into received, queued and dropped; without drops, received and queued are all of them in order |
| StoreProps.StalledSubscriber | internal/store/store.go:73-96 | a subscriber that never reads holds exactly its first 100 matches and drops all later ones |
| StoreProps.PushEffect | internal/store/store.go:62-82 | a push appends one event and offers it to exactly the registered subscriptions whose filter passes it: enqueued below 100 waiting items, dropped at 100 |
| StoreProps.ReceiveEffect | internal/store/store.go:91-95 | a receive takes the oldest waiting item of its channel and changes nothing else |
| StoreProps.SubscribeEffect | internal/store/store.go:90-96 | a subscription is a new empty open channel with the given filter, registered last |
| StoreProps.DroppedIff | internal/store/store.go:73-81 | over any run, a matching push is dropped if and only if 100 items wait at that moment, counted from the operations alone |
| StoreProps.RegisteredAreLive | internal/store/store.go:90-110 | over any run the registered channels are those subscribed and not yet unsubscribed, distinct and open |
| StoreProps.Rebuffer | cmd/dbwatch/main.go:328-345 | a snapshot of c1 slots and then a stream, buffered in c2 slots, shows the last min(c2, c1 + length of stream) of history and stream |
| Stores.Store.constructor | internal/store/store.go:54-59 | a new store is empty, with a ring of the given capacity |
| Stores.Store.Push | internal/store/store.go:62-82 | the ring, counters and every subscriber channel move exactly as the abstract push; closed channels are never sent to |
| Stores.Store.Record | internal/store/store.go:66-71 | overwriting the slot at the cursor keeps the ring the last `capacity` pushes, cursor = pushes mod capacity, total mod 2^64 |
| Stores.Store.FanOut | internal/store/store.go:73-81 | the loop delivers to the registered channels as the abstract broadcast, without panic |
| Stores.Store.SubscribeWithFilter | internal/store/store.go:90-96 | registers a fresh open channel with an empty queue of capacity 100 |
| Stores.Store.Unsubscribe | internal/store/store.go:99-110 | closes and removes the first subscriber with this channel, or touches nothing |
| Stores.Store.Receive | internal/store/store.go:91-95 | a subscriber's receive yields its oldest queued event and changes nothing else |
| Stores.Store.Snapshot | internal/store/store.go:113-126 | the copy is the last min(total, capacity) of the push history, oldest first |
| Stores.Store.Stats | internal/store/store.go:129-133 | total is the number of pushes mod 2^64 and buffered the snapshot's length |
| Clients.Client.ReadHandshake | internal/ipc/client.go:67-92 | succeeds if and only if the first two envelopes are a hello and a snapshot, and records both |
| Clients.Client.Handle | internal/ipc/client.go:106-134 | an event is enqueued, or dropped and counted when the channel is full; a malformed one ends the loop; stats may be lost; the rest is ignored |
| Clients.Client.ReadLoop | internal/ipc/client.go:94-136 | what the consumer got or still can get, merged with what was dropped, is every decoded event in order; the error channel gets exactly one error, for the stream's end or for a bad event, and all three channels end closed |
| Clients.FillLocalStore | cmd/dbwatch/main.go:328-345 | runAttach's store holds the client's snapshot then its delivered events, and shows the last min(buffer, c1 + delivered) of history and delivered |
| ClientProps.ClientLaw | internal/ipc/client.go:94-136 | for any stream, an event is dropped if and only if 100 wait at that moment, the first 8 stats are kept, and the loop has ended if and only if a malformed event has come |
| AttachProps.NextKeeps | internal/ipc/server.go:88-193 | every action of any connection or other store user keeps every connection's invariant and the subscriber accounting |
| AttachProps.AttachSafety | internal/ipc/server.go:107-139 | under every interleaving, what a client pushes into its own store sits at strictly increasing positions of the daemon's history, snapshot first |
| AttachProps.AttachCoverage | internal/ipc/server.go:110-121 | snapshot at p and subscription at q give p <= q; without loss the flow is exactly [p-cap, p) then [q, now); positions in [p, q) are always missing |
| AttachProps.QuietCoverage | cmd/dbwatch/main.go:328-355 | once nothing is under way, a client has pushed exactly [p-cap, p) then [q, now) without what was dropped, and all of it if nothing was |
| AttachProps.HandshakeAgreement | internal/ipc/server.go:98-191 | the wire is hello, snapshot, then any mix of event, stats and pong; this client never refuses this server and learns its hello and snapshot |
| AttachProps.Accounting | internal/ipc/server.go:89-122 | the daemon never panics, the client count is the number of live handlers, and a subscription is registered exactly while its handler serves |
| AttachProps.NoLeak | internal/ipc/server.go:89-122 | when the client count is back to zero no connection's channel is left registered |
| AttachLaws.WorkingSends | internal/ipc/server.go:98-191 | on a connection whose writes work, each send puts exactly its envelope on the wire and loses nothing: event, hello, snapshot, stats, pong |
| AttachLaws.FailingSends | internal/ipc/server.go:98-191 | a failing send sends nothing and loses exactly what it carried; in the handler it ends the handler, in a helper goroutine it stops both |
| AttachLaws.BrokenStays | internal/ipc/server.go:98-105 | after the first failed write nothing is sent any more |
| AttachLaws.NothingLost | internal/ipc/server.go:107-155 | over every run in which none of a connection's writes fails, it loses nothing but what a full queue drops; with no full queue the flow is exactly [p-cap, p) then [q, now) |
| AttachProgress.CanDeliver | internal/ipc/server.go:124-139 | from every state in which the handler serves, its writes work and the client reads, everything under way can reach the client's store, in order and without a drop, whatever the others do |
| AttachProgress.CanArrive | cmd/dbwatch/main.go:328-355 | after every run such a client can end up with the snapshot and every later push but those already dropped |
| AttachProgress.OthersAct | internal/ipc/server.go:121-122 | other users of the store act on it as if no connection existed, but cannot read or close a connection's subscription |
| AttachProgress.PushReaches | internal/ipc/server.go:121-139 | a push by anyone is enqueued for every serving connection, or dropped when 100 events wait |
| AttachProgress.ClientStops | internal/ipc/client.go:99-104 | after a read error a client reads no more and after the user quits it pushes no more; nothing else changes |
| AttachProgress.CanServe | internal/ipc/server.go:88-121 | one more connection can be served from every state: counted, greeted with hello and the last cap positions, subscribed from there on; nobody else notices |
| AttachProgress.CanLeave | internal/ipc/server.go:88-122 | every served connection can leave: its subscription closed and removed, the count one lower, the handler gone; nobody else notices |
| AttachProgress.HelpersEnd | internal/ipc/server.go:124-155 | once a connection is stopped, its pump and its ticker can end, losing at most the event the pump holds |
| AttachCounts.ParsedIsEnqueuedPlusDropped | internal/ipc/client.go:106-125 | under every interleaving, the events a client parsed are those enqueued and those dropped, item by item in order |
| LocalViews.SnapshotIsPositions | internal/store/store.go:113-126 | the snapshot's k-th event is the event at the k-th of its positions |
| LocalViews.JSONModeCoverage | cmd/dbwatch/main.go:245-269 | subscribe at q then snapshot at p, no overflow: nothing from min(q, max(0, p-cap)) on is missing and exactly [max(q, p-cap), p) is printed twice |
| LocalViews.TUIModeCoverage | cmd/dbwatch/main.go:187-200 | snapshot at p then subscribe at q, no overflow: strictly increasing positions, exactly [p, q) missing |
| Listeners.SchemaCache.Update | internal/listener/schema_cache.go:44-62 | overwrites the relation's entry with its schema, name and columns, unknown type OIDs as "unknown" |
| Listeners.SchemaCache.Get | internal/listener/schema_cache.go:65-68 | returns the entry if and only if there is one |
| ListenerSpec.RowMapLast | internal/listener/decoder.go:66-86 | a name's decoded value is that of its last column of a known kind |
| ListenerSpec.RowMapOnly | internal/listener/decoder.go:66-86 | a name is decoded if and only if a column within both tuple and metadata has it and a known kind |
| Listeners.DecodeTuple | internal/listener/decoder.go:66-86 | the loop builds exactly that row, stopping at the end of the metadata |
| ListenerLaws.RowShows | internal/listener/decoder.go:66-86 | with distinct column names, the row maps column i to the text sent at index i, 'n' to NULL, 'u' to "[unchanged]", and holds nothing else; no tuple gives no row |
| Listeners.NewEvent | internal/listener/decoder.go:88-99 | takes the next 64-bit ID and the cached schema, table and columns |
| Listeners.DecodeMessage | internal/listener/decoder.go:17-64 | an event for a DML message of a cached relation, an error for an uncached one, nothing for the rest; only an event takes an ID |
| ListenerProps.IterateKeeps | internal/listener/listener.go:137-221 | one turn of the loop keeps cache, counter, position, acks and output true to the messages seen |
| ListenerProps.Transducer | internal/listener/listener.go:194-212 | for any stream, what was enqueued merged with what was dropped is exactly the decodable messages' events in order; the counter counts them and no others |
| ListenerProps.OfferedFrom | internal/listener/decoder.go:35-99 | each event carries the schema, table and columns of the latest earlier Relation message of its OID |
| ListenerProps.TurnEffect | internal/listener/listener.go:188-216 | one more message: a decodable one takes the next ID and is enqueued, or dropped on a full channel; any other takes no ID and emits nothing; DML without an earlier Relation changes neither cache nor position; a returned loop changes no more |
| ListenerLaws.ChangeLaw | internal/listener/decoder.go:17-99 | after any stream, an insert, update or delete of a described relation becomes one event with the next ID, the latest Relation's names and columns, new values from the new tuple and old values from the old, enqueued unless the channel is full |
| ListenerLaws.SilentLaw | internal/listener/listener.go:188-216 | any other message, and a change of a relation not described before, emits nothing and takes no ID |
| ListenerProps.IdsIncreaseIff | internal/listener/decoder.go:13-13 | decoded IDs strictly increase if and only if the 64-bit counter does not wrap among them |
| ListenerProps.IdsWrap | internal/listener/decoder.go:90-90 | with the counter one below its maximum, two inserts get the maximum and then 0 |
| ListenerProps.EmittedIdsIncrease | internal/listener/listener.go:205-212 | short of the wrap, enqueued IDs strictly increase, and an ID of the numbering is missing among them if and only if a dropped event has it |
| ListenerProps.AckPositions | internal/listener/listener.go:134-216 | acknowledged positions never decrease and each is the largest of the start and the WAL starts of messages parsed and decoded by then |
| ListenerLaws.AckLaw | internal/listener/listener.go:128-222 | the loop ends at the first turn that ends it and as that turn says, and acknowledges exactly when the timer is due, after every timeout and on every request, as long as sending works |
| Listeners.Listener.HandleLogical | internal/listener/listener.go:188-216 | one WAL message: cache, decode, lossy send, then position, in that order |
| Listeners.Listener.HandleRaw | internal/listener/listener.go:145-220 | one received message of any kind, its status replies and the ways it ends the loop |
| Listeners.Listener.ReadLoop | internal/listener/listener.go:128-222 | the loop sends the acks and leaves the queue, counter, cache and exit status of the transducer |
| RunnerProps.NextKeeps | internal/core/runner.go:29-62 | every action of listener, forwarder, DDL goroutine, marker API or subscribers keeps the hand-off exact |
| RunnerProps.ForwarderDrain | internal/core/runner.go:29-62 | the listener's part of the store is always an ordered prefix of what it enqueued, and all of it once Run returns uncancelled; with no drops it is every event of the stream |
| RunnerProps.CallsFollowPushes | internal/core/runner.go:44-47 | onEvent sees each source's events in push order, after the push, at most one behind, and all of the listener's once Run has returned |
| RunnerProps.StoredIdsIncrease | internal/core/runner.go:40-47 | short of the counter's wrap the listener's events sit in the store with strictly increasing IDs, whatever is pushed in between |
| RunnerProps.CancelLosesQueue | internal/core/runner.go:36-60 | from every state with the forwarder at its select and events queued, cancellation can make Run return with store and queue as they are |
| RunnerProps.CancelLosesEvents | internal/core/runner.go:38-39 | an instance: a cancelled run that returns with an enqueued event never pushed |
| RunnerProps.CallsInStoreOrder | internal/core/runner.go:44-47 | over any run without DDL tracking, onEvent follows the store's order, at most one call behind, and is complete once Run has returned |
| RunnerProps.DDLCanOvertake | internal/core/runner.go:79-84 | from every state with an event pushed and not yet announced, a DDL item pushed next can be announced first, against the store's order |
| RunnerProps.CallsCanReorder | internal/core/runner.go:79-84 | an instance: onEvent sees a DDL item before a row event that was pushed earlier |
| RunnerLaws.TurnEmits | internal/core/runner.go:30-31 | a listener turn with a change of a described relation enqueues its event for the forwarder, or drops it when as many wait as the store has slots |
| RunnerLaws.OthersPush | internal/core/runner.go:79-84 | a push by DDL tracking or the marker API appends its event to the store and its source to the record, and touches nothing else |
| RunnerLaws.SubscribersAct | internal/core/runner.go:40-44 | a subscriber's operation on the store touches nothing of the hand-off |
| RunnerLaws.DrainCompletes | internal/core/runner.go:36-49 | after every uncancelled run the forwarder alone can push and announce everything enqueued, in order |
| RunnerLaws.RunReturns | internal/core/runner.go:56-61 | once the listener has returned, Run can return with nothing enqueued left behind |
| Runners.Forward | internal/core/runner.go:36-49 | the forwarder's loop pushes, in order, exactly what it received, and calls onEvent on the same |
| Runners.KeptAndLost | internal/core/runner.go:30-30 | the events kept and those dropped are the events sent, in order; a schedule whose backlog never fills drops nothing, at any length |
| Runners.PromptForwarder | internal/core/runner.go:36-49 | a forwarder that takes each event before the next is sent drops none, at any length and capacity |
| Runners.Run | internal/core/runner.go:29-62 | for any schedule of sends, forwarder turns and other pushes, and cancellation at any point, a send is dropped if and only if the backlog of the steps before it is the capacity; what is forwarded, what is left and where each push lands in the store are read off the steps likewise; nothing is left unless cancelled; the listener's error is returned |
| EndToEnd.AttachedIdsIncrease | internal/core/runner.go:29-62 | listener, store, server and client together: short of the wrap, the listener's events inside any client's own store carry strictly increasing IDs |
| Tui.AddTable | internal/tui/filter.go:43-50 | appends the name unless it is already listed |
| Tui.FilterEvents | internal/tui/filter.go:79-94 | the loop computes the filtered view |
| TuiProps.ViewSplitsFeed | internal/tui/filter.go:79-94 | the view keeps the feed's order and hides exactly the DB events whose table is not enabled |
| TuiProps.VisibleIsFiltered | internal/tui/filter.go:80-82 | while every DB event's table is in the filter map the empty-map shortcut changes nothing |
| TuiProps.UpdateKeeps | internal/tui/app.go:93-269 | every message keeps both cursors in their lists, tables distinct and equal to the filter map's keys, pending empty unless paused, never both overlays |
| TuiProps.SafeRuns | internal/tui/app.go:62-269 | the same after any run of messages and keys from any preloaded feed, so no index into the view or the tables is out of range |
| TuiProps.NewCursorIff | internal/tui/app.go:62-88 | the initial cursor is inside the view if and only if all or none of the DB events name a table |
| TuiProps.NewCursorOutOfRange | internal/tui/app.go:75-78 | a preloaded mix whose "[" scan would start outside the view |
| TuiProps.FilterChangesOnlyByToggle | internal/tui/app.go:102-107 | over any run without the sidebar's toggle every known table keeps its setting and every new one starts enabled |
| TuiProps.StepFilter | internal/tui/app.go:256-259 | one message changes the filter only by enabling a new table or by negating the table under the sidebar's cursor |
| TuiProps.FeedConservation | internal/tui/app.go:100-132 | after every run feed plus pause buffer is a contiguous suffix of what was there and what arrived, shortened only by confirmed clear and trim |
| TuiProps.TrimKeepsFromMarker | internal/tui/app.go:218-232 | a trim leaves the feed from its newest marker on, and changes nothing when that is the first item or there is none |
| TuiProps.StepWhilePaused | internal/tui/app.go:93-269 | one message moves a paused and a never-paused model alike, up to where new events wait |
| TuiProps.PauseTransparency | internal/tui/app.go:180-186 | pausing, any undisturbed messages, then resuming gives the same feed, tables and filter as never pausing |
| TuiProps.TrimWhilePaused | internal/tui/app.go:218-232 | a trim while paused gives the feed of one without the pause if and only if no marker waits that it would have trimmed to |
| TuiProps.TrimWhilePausedDiffers | internal/tui/app.go:218-232 | a feed and a waiting marker for which it differs |
| TuiProps.EventKeepsSelection | internal/tui/app.go:112-118 | a new event moves the cursor only near the end of the view, and then to its end; otherwise the same item stays selected |
| TuiProps.MarkerJumpsReturn | internal/tui/app.go:198-216 | from a marker with a later one, "]" then "[" comes back |
| TuiProps.CursorKeys | internal/tui/app.go:158-173 | a step down and up, or up and down, returns; "j" after "G" and "k" after "g" do nothing |
| TuiProps.ToggleTwice | internal/tui/app.go:256-265 | toggling a table twice restores filter and view |
| TuiLaws.NextMarkerLaw | internal/tui/app.go:208-216 | "]" puts the cursor on the nearest marker after it, none in between, and closes the detail; with no marker after it nothing changes |
| TuiLaws.PrevMarkerLaw | internal/tui/app.go:198-206 | "[" puts the cursor on the nearest marker before it, likewise |
| TuiLaws.TrimLaw | internal/tui/app.go:218-232 | "M" leaves the feed from its newest marker on, cursor on it, detail closed, when that is not the first item; otherwise nothing changes |
| TuiLaws.ScrollDown | internal/tui/app.go:158-161 | n times "j" or down moves the cursor n items down, or to the last, and changes nothing else |
| TuiLaws.ScrollUp | internal/tui/app.go:163-166 | n times "k" or up moves the cursor n items up, or to the first, and changes nothing else |
| TuiLaws.Ends | internal/tui/app.go:168-173 | "G" is as many "j" as it takes; "g" as many "k", with the detail closed |
| TuiLaws.OverlayLaw | internal/tui/app.go:122-138 | "c" then "c" empties feed and buffer, "c" then any other key and "?" then any key restore the model |
| TuiLaws.OtherKeysLaw | internal/tui/app.go:154-178 | enter opens or closes the detail unless nothing is shown; quit keys, unbound keys and other messages change nothing |
| TuiLaws.SidebarLaw | internal/tui/app.go:238-269 | from the feed "f", n steps down, space and back negate exactly table n's setting and move the cursor only to the end of a view that became too short |
| TuiLaws.SidebarUp | internal/tui/app.go:251-254 | n times "k" or up in the sidebar moves n tables up, or to the first, and changes nothing else |
| TuiLaws.SidebarKeys | internal/tui/app.go:238-269 | in the sidebar "f" and escape go back to the feed and every unbound key does nothing |
| TuiLaws.ArrivalLaw | internal/tui/app.go:100-120 | arriving events wait while paused, with view and cursor unchanged, and join the feed in order while live; the tables they name are listed in order and shown unless hidden before |
| TuiLaws.FollowsEnd | internal/tui/app.go:113-118 | while live, a cursor on the last shown item stays on the last shown item over any number of events |
| TuiLaws.PauseLaw | internal/tui/app.go:180-186 | pause, any events, resume: the model of never having paused, with the cursor at the end, or where it was when nothing arrived |
| TuiLaws.PreloadIsReceiving | internal/tui/app.go:62-120 | preloading a feed gives the same model as starting empty and receiving it event by event |
| TuiLaws.StartLaw | internal/tui/app.go:62-88 | at the start every preloaded event is shown, the last one selected, and the feed listens |
| Tui.Preload | internal/tui/app.go:63-73 | the loop lists the tables of the preloaded events and enables them |
| Tui.Model.NewWithEvents | internal/tui/app.go:62-88 | the preloaded feed with its tables, and the cursor at the end of the unfiltered list |
| Tui.Model.Update | internal/tui/app.go:93-149 | the fields end up as the value-level step says, and the quit command is returned exactly for the quit keys outside overlays |
| Tui.Model.UpdateFeed | internal/tui/app.go:151-236 | every feed key, with no index out of range |
| Tui.Model.JumpBack | internal/tui/app.go:198-206 | the downward scan finds the nearest marker before the cursor, or leaves cursor and detail as they are |
| Tui.Model.JumpForward | internal/tui/app.go:208-216 | the upward scan finds the nearest marker after the cursor, or leaves cursor and detail as they are |
| Tui.Model.TrimToMarker | internal/tui/app.go:218-232 | the scan finds the newest marker and drops what precedes it |
| Tui.Model.UpdateFilter | internal/tui/app.go:238-269 | every sidebar key, with the feed cursor clamped to the view after a toggle |
| StringOrder.SortedUnique | internal/snapshot/comparator.go:263-277 | a set of names has one sorted listing, so map iteration order cannot show |
| StringOrder.LessIff | internal/snapshot/comparator.go:275-275 | the order of the listing is the lexicographic one: lower at the first difference, or a proper prefix |
| Comparator.SortedKeys | internal/snapshot/comparator.go:263-277 | whatever order the maps are iterated in, the result is the sorted union of their keys |
| Comparator.IndexColumns | internal/snapshot/comparator.go:241-247 | columns by name, the later of two with one name |
| Comparator.CompareColumns | internal/snapshot/comparator.go:113-141 | the loop computes a table's column changes |
| Comparator.CompareSchema | internal/snapshot/comparator.go:88-111 | the loop computes the schema changes |
| Comparator.CompareColumnStats | internal/snapshot/comparator.go:209-237 | the loop computes a table's drifts |
| Comparator.CompareStatistics | internal/snapshot/comparator.go:172-207 | the loop computes the data changes |
| Comparator.Compare | internal/snapshot/comparator.go:78-86 | the report holds the labels, the schema changes and the data changes |
| Comparator.BreakingCount | internal/snapshot/comparator.go:53-61 | counts the breaking changes |
| Comparator.NotableDataCount | internal/snapshot/comparator.go:64-74 | counts the notable drifts of all tables |
| CompareProps.ColumnAtHolds | internal/snapshot/comparator.go:241-247 | the column compared under a name is the last of that name in the table's list, and none when there is none |
| CompareProps.CanonicalForm | internal/snapshot/comparator.go:88-141 | schema changes are strictly sorted by table and column, one per key at which the schemas differ |
| CompareLaws.ReportLaw | internal/snapshot/comparator.go:76-170 | a report goes from a's label to b's, strictly sorted; it says something at exactly the keys at which the snapshots differ, and what it says is true of both |
| CompareLaws.BreakingCountLaw | internal/snapshot/comparator.go:52-61 | a report's breaking count is the number of tables and columns of a that are gone, retyped or no longer nullable in b |
| CompareProps.ReportIsUnique | internal/snapshot/comparator.go:88-141 | any sorted list that holds exactly the change of every differing key is the report |
| CompareProps.ChangesAreTrue | internal/snapshot/comparator.go:95-170 | every change's kind, from and to, and verdict are true of the two schemas |
| CompareProps.EmptyIffAgree | internal/snapshot/comparator.go:88-170 | no change is reported if and only if both schemas have the same tables and columns with the same type, nullability and default |
| CompareProps.BreakingIff | internal/snapshot/comparator.go:101-157 | a breaking change at a key if and only if the table or column is removed, its type changes, or NULL is no longer allowed |
| CompareProps.ChainBreaks | internal/snapshot/comparator.go:144-170 | a column broken over a chain of schemas is broken, or its table gone, at one of the steps |
| CompareProps.BreakingTriangle | internal/snapshot/comparator.go:88-170 | a breaking change between first and last of a chain of any length is reported by some adjacent step at that column or its table |
| CompareProps.NonBreakingChain | internal/snapshot/comparator.go:53-61 | a chain of non-breaking migrations is non-breaking overall |
| CompareProps.MirrorLaw | internal/snapshot/comparator.go:113-170 | comparing the other way gives the same keys with added and removed, from and to exchanged; breaking counts sum to changes + type changes - default-only changes |
| CompareProps.DataReport | internal/snapshot/comparator.go:172-237 | one true entry per table of either side, in order; measured tables list exactly the shared columns whose numbers differ, with the numbers; the note says which side lacks the table or that statistics were skipped |
| CompareProps.NotableIsNullsFell | internal/snapshot/comparator.go:229-233 | the notable count is the number of shared (table, column) pairs of unskipped tables whose positive NULL count fell |
| Capturer.Contains | internal/snapshot/capturer.go:255-262 | the scan finds the name if and only if it is listed |
| Capturer.Included | internal/snapshot/capturer.go:245-253 | an include list wins over an exclude list; with neither every table counts |
| Capturer.CaptureStatistics | internal/snapshot/capturer.go:177-214 | the loop computes a table's statistics for any database answers |
| Capturer.Capture | internal/snapshot/capturer.go:64-99 | the loop computes the snapshot, or the error of the first failing schema query |
| CaptureProps.StatisticsOk | internal/snapshot/capturer.go:177-214 | a table is skipped exactly when its row count failed, it is over the threshold or a column query failed; otherwise every column has an entry; NULLs and non-NULLs add up to the rows |
| CaptureProps.MeasureEntry | internal/snapshot/capturer.go:201-212 | a column's entry is its own query's answer, with NULLs as rows minus non-NULLs |
| CaptureLaws.StatisticsLaw | internal/snapshot/capturer.go:177-214 | no entries when the row count fails or is over the threshold (default 10 million), else the answers up to the first failing column; the reason names which it was |
| CaptureProps.CaptureIsWell | internal/snapshot/capturer.go:77-96 | a capture covers exactly the listed tables the options include, in schema and statistics alike, with well-formed statistics |
| CaptureLaws.CaptureLaw | internal/snapshot/capturer.go:64-99 | a capture succeeds exactly when the table list and every wanted table's columns and indexes can be read, else it is the first error; under "schema.table" it holds what was read for the last wanted table of that key, and nothing else |
| CaptureProps.DriftAddsUp | internal/snapshot/comparator.go:209-237 | every drift between two captures satisfies change of NULLs + change of non-NULLs = change of rows |
| CaptureProps.TablesAgree | internal/snapshot/comparator.go:179-192 | the data report says "new" or "removed" of exactly the tables the schema report adds or removes |

## Left out

- Postgres connections, replication slots, publications, replica identity and SQL text: foreign calls; `readLoop` is given already-parsed messages.
- JSON encoding, sockets, deadlines and wall-clock timers: envelopes are values, wires are queues, and ticks, timeouts and ack deadlines are steps that may happen at any time.
- The handler, pump and ticker goroutines and the read side of `runAttach` are steps of a state machine on values (`Attach`), not methods; update in place and the write mutex appear only as atomic steps. `runJSONMode` and `runTUIMode` are likewise sequences of store steps (`LocalViews`).
- A send that fails after part of an envelope reached the socket counts as not sent; the client then ends with a read error, which it may do at any time.
- A `CopyData` message with an empty body, on which the program panics.
- An unbuffered hand-off channel (`--buffer 0`): the model always drops there, while Go could pass an event directly; the store panics on its first push anyway.
- Runners.Run: the DDL goroutine's onEvent calls are not part of it; they are steps of their own in `RunnerProps`.
- Event timestamps and transaction IDs; marker, log and DDL payloads are one text field.
- The `error` and text a failing query returns, and the wording of a change's `detail`: kept as values, not as formatted strings. Snapshot IDs, capture times and the default label are not part of this model.
- Column positions and table indexes: captured, and ignored by the comparator.
- The filter map shared by successive copies of the Go UI model: the class has one map, as the program only keeps the last copy.
- Rendering, colours, help text and reports; the SQLite store; the marker HTTP API; DDL trigger installation; daemon processes, PID files, signals, configuration and command-line wiring.
