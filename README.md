# MA3 Cue Display: the cue-state interpreter and its fan-out

A GrandMA3 lighting console sends OSC messages over UDP. Each copy of the
cue display keeps one process-wide cue record. It updates that record from
every decoded message and pushes the record to the WebSocket displays.

The model covers three copies of that logic:

- `src/server.js`: the standalone Node server. It is modelled by modules `JsCue` and `NodeServer`.
- `cue-display-app/main.js`: the Electron app. It is modelled by module `DisplayApp`. Its message handler (lines 108-170) is the same code as the server's, so it reuses `JsCue.JsStep` and `JsCue.CueRecord`.
- `gma3-cue-display-tauri/src-tauri/src/lib.rs`: the Tauri backend. It is modelled by modules `TauriCue` and `OscLog`.

Shared pieces:

- `Osc`: a decoded message, that is, an address and typed arguments `i`/`f`/`s`/`d`/other.
- `Cue`: the record and its initial value.
- `Text`: JavaScript `split`, `filter(p => p)` and decimal `toString`.
- `CuePattern`: a hand-written matcher for `^(.+?)\s+(\d+(?:\.\d+)?)\s+(.+)$`. It is proved sound and complete against a declarative reading of the pattern. It returns the match with the shortest group 1, as the lazy `.+?` does.
- `Hub`: the subscribers. Each is open or closed and has an outbox of the frames sent to it.

Each copy has a pure transition and a class:

- The pure transitions are `JsStep` and `RsStep`, and for whole processes `ServerMessage`, `ServerConnect` and `RsParse`. Their properties are proved as lemmas.
- The classes mutate the same state in place: `CueRecord` (`currentState`), `Hub` (`wss.clients`), `CueServer`, `CueDisplayApp` and `Backend`. Each method is proved to produce exactly the state its pure transition gives.

The three copies differ, and the model keeps the differences:

- The Rust copy never takes `sequenceName` from the address. It takes it from group 1 of the cue-name match.
- The Rust fallback to the numeric argument fires only on exactly `"--"`. The JavaScript fallback also fires on `""`.
- The Rust copy recognises an action only when `args[0]` is an OSC string.

`EmptyNumberDiverges`, `NonStringActionDiverges`, `SequenceNameDiverges` and `AddressIgnored` state these differences.

Some inputs are parameters of the model:

- `now` is the receive time, which the source reads from the wall clock.
- `clock(i)` is the receive time of bundle element `i`.
- `floatText` is how a float is rendered as text (`Number.prototype.toString`, or Rust's `f32::to_string`).

The model follows the code in these points:

- The record is mutated in place, as `currentState` is (src/server.js:91-137).
- Unknown argument types are logged by the Rust copy as `"?"`/`"unknown"` (gma3-cue-display-tauri/src-tauri/src/lib.rs:127-130).
- `Other` arguments never carry the tags `i`, `f`, `s` or `d`: those four always decode to their own variants.

## Model

| member | source | states |
|---|---|---|
| Text.Split | src/server.js:95 | `address.split('/')`: at least one part, no part contains the separator, and joining the parts with the separator gives back the input |
| Text.SplitAround | src/server.js:95 | splitting at a separator splits each side independently and concatenates the results |
| Text.SplitAllEmpty | src/server.js:95-96 | every part is empty exactly when the string is made of separators only |
| Text.NonEmpty | src/server.js:95 | `filter(p => p)` keeps no empty part and never grows the list |
| Text.NonEmptyAppend | src/server.js:95 | the filter distributes over concatenation, keeping order |
| Text.NonEmptyNone | src/server.js:96 | nothing survives the filter exactly when every part is empty |
| Text.NatToString | gma3-cue-display-tauri/src-tauri/src/lib.rs:178 | decimal digits: non-empty, digits only, no leading zero |
| Text.IntToString | src/server.js:133 | `toString`/`to_string` of an integer: a leading `-` exactly for negative values, then decimal digits with no leading zero except for `0`; `IntToStringRoundTrip` is its inverse |
| Text.IntToStringRoundTrip | src/server.js:133 | the decimal text of an integer parses back to the same integer and is never `""` or `"--"`, so a number once written counts as set |
| CuePattern.SkipWs | src/server.js:122 | `\s+` scanning stops at the end of a maximal whitespace run |
| CuePattern.SkipDigits | src/server.js:122 | `\d+` scanning stops at the end of a maximal digit run |
| CuePattern.NumeralEnd | src/server.js:122 | `\d+(?:\.\d+)?` starting at a digit ends at a numeral |
| CuePattern.TryAt | src/server.js:122 | a tail found after group 1 is a real match of whitespace, number, whitespace, rest |
| CuePattern.TryAtComplete | src/server.js:122 | if any tail matches after group 1, the scan finds it, with the same number |
| CuePattern.TailUnique | src/server.js:122 | for a fixed group 1 the number is unique |
| CuePattern.Search | src/server.js:122 | every reported match is a match of the whole pattern with group 1 at least as long as the starting point |
| CuePattern.SearchComplete | src/server.js:122 | if the pattern matches with some group 1, the search reports a match with a group 1 no longer than it |
| CuePattern.CueNumberOf | src/server.js:122-126 | on a hit, group 2 is a numeral (never empty, never `"--"`), group 1 is non-empty, and both come from a match of the pattern |
| CuePattern.CueNumberOfNone | src/server.js:123 | no result exactly when the pattern cannot match |
| CuePattern.CueNumberOfLeftmost | src/server.js:122 | the result is the match with the shortest group 1 (the lazy `.+?`) |
| CuePattern.NameNumberRest | src/server.js:119-122 | "name number rest" yields the name and the number when the name's whitespace is followed by neither whitespace nor a digit |
| CuePattern.SongNameExample | src/server.js:120 | `"Song Name 9 Verse 2 / Description"` yields cue number `9` |
| OscLog.LogArg | gma3-cue-display-tauri/src-tauri/src/lib.rs:110-131 | each argument maps to one of `i`/`f`/`s`/`d`/`?`; `?` exactly for the other variants, whose value is `"unknown"` |
| OscLog.LogArgs | gma3-cue-display-tauri/src-tauri/src/lib.rs:107-132 | the mapped list has the same length and order, element by element |
| OscLog.LogArgRoundTrip | gma3-cue-display-tauri/src-tauri/src/lib.rs:110-131 | the logged tag and value give back every argument of a known type, and none of the others |
| OscLog.Pushed | gma3-cue-display-tauri/src-tauri/src/lib.rs:140-146 | the new entry is at the front; the older entries follow in order; the length grows by one below 100 and stays at most 100, dropping the oldest |
| OscLog.TakeTake | gma3-cue-display-tauri/src-tauri/src/lib.rs:143-145 | truncating twice to the capacity is truncating once |
| OscLog.PushAllNewestFirst | gma3-cue-display-tauri/src-tauri/src/lib.rs:140-146 | after any run of entries the log is the newest 100 entries, newest first |
| Hub.Fanout | src/server.js:63-69 | a broadcast appends the frame to every open subscriber and leaves closed ones untouched; none is added, dropped or reordered |
| Hub.FanoutAllDelivers | src/server.js:63-69 | broadcasts in a row deliver every frame, in order, to each open subscriber and nothing to closed ones |
| Hub.Hub.Connect | src/server.js:49-55 | a new connection is registered open, with the snapshot as its first frame |
| Hub.Hub.Disconnect | src/server.js:57-59 | a closed connection is marked closed and nothing else changes |
| Hub.Hub.Broadcast | src/server.js:63-69 | the `forEach` send loop produces exactly `Fanout` of the subscribers |
| JsCue.Segments | src/server.js:95 | the filtered segments are non-empty and contain no `/` |
| JsCue.LabelOfLastSegment | src/server.js:96-105 | the label comes from the last non-empty segment |
| JsCue.LabelIgnoresTrailingSlash | src/server.js:95 | a trailing slash does not change the label |
| JsCue.NoSegmentIffOnlySlashes | src/server.js:95-96 | there is no segment exactly when the address is all slashes, and then `sequenceName` is kept |
| JsCue.SegmentLabel | src/server.js:97-104 | a segment without a dot is the label itself; a dotted one gives `"Seq "` followed by a dot-free token, which `DottedSegmentLabel` shows is the one after the last dot |
| JsCue.SeqLabel | src/server.js:95-105 | an address with no non-empty segment keeps the previous `sequenceName`; otherwise the label is non-empty, and `LabelOfLastSegment`, `LabelIgnoresTrailingSlash` and `DottedAddressLabel` state which one it is |
| JsCue.DottedSegmentLabel | src/server.js:98-101 | a dotted segment is labelled `"Seq "` plus its last dot token |
| JsCue.DottedAddressLabel | src/server.js:94-101 | `/<p>.<t>` is labelled `"Seq " + t` |
| JsCue.DottedAddressExample | src/server.js:94 | `/14.14.1.6.67` gives `"Seq 67"` |
| JsCue.PlainAddressExample | src/server.js:102-104 | a plain last segment `Main` is the label verbatim |
| JsCue.NumberText | src/server.js:133 | `args[1].value.toString()`: an integer's text parses back to it and is never `""` or `"--"`; a float's text is the `floatText` rendering |
| JsCue.JsDispatch | src/server.js:107-147 | the action block never touches `connected`, `lastUpdate` or `sequenceName`; it sets `isActive` exactly on a trigger verb; a non-trigger leaves the name and number alone; a trigger leaves the progress alone |
| JsCue.JsStep | src/server.js:91-147 | every message sets `connected` and `lastUpdate`; the label follows the address; trigger verbs set `isActive` and take a string `args[2]` as the name; a pattern hit wins for the number; a numeric `args[1]` fills only an empty or `"--"` number; a float `args[2]` of `FaderMaster` sets progress to 100 times it; nothing else changes |
| JsCue.JsStepIdempotent | src/server.js:91-147 | handling the same message twice at the same time gives the record of handling it once |
| JsCue.JsTrace | src/server.js:79-153 | one record per message handled; `JsTraceRecords` states which |
| JsCue.JsTraceRecords | src/server.js:79-153 | record `k` of the trace is the record after the first `k + 1` messages |
| JsCue.JsRunIsLastOfTrace | src/server.js:149-152 | the record after a run is the one the last broadcast carried |
| JsCue.JsRunMonotone | src/server.js:91-137 | `connected` and `isActive` never return to false; after a message `lastUpdate` is that message's time |
| JsCue.JsNumberSticky | src/server.js:129-135 | once set, the cue number is never replaced by a numeric argument, only by a pattern hit |
| JsCue.NameThenNumber | src/server.js:114-137 | a name-only trigger followed by a number-only trigger keeps the union: the name of the first, the number of the second |
| JsCue.IntroSongExample | src/server.js:114-137 | `Go+` with name `"Intro Song 5 Verse 1"` gives number `5`, that name, and `isActive` |
| JsCue.GotoNumberExample | src/server.js:129-135 | `Goto` with only the integer 9 turns an unknown number into `"9"` |
| JsCue.FaderExample | src/server.js:142-146 | `FaderMaster` with level 0.73 sets progress 73 and leaves the cue fields alone |
| JsCue.CueRecord.constructor | src/server.js:30-38 | the record starts with the initial values |
| JsCue.CueRecord.OnMessage | src/server.js:91-147 | the handler's in-place field updates give exactly `JsStep` of the old record |
| JsCue.CueRecord.SetSequenceName | src/server.js:94-105 | the address block sets exactly the label `SeqLabel` gives |
| JsCue.CueRecord.Dispatch | src/server.js:110-147 | the action block updates exactly as `JsStep`'s action part |
| NodeServer.ServerMessage | src/server.js:79-153 | after a message, the record is `JsStep` of the old one and every open display gets exactly one `cueUpdate` with it; closed ones get nothing |
| NodeServer.ServerConnect | src/server.js:49-55 | a new display is appended, open, with the `state` snapshot as its only frame; nothing else changes |
| NodeServer.ServerClose | src/server.js:57-59 | a disconnect closes only that display |
| NodeServer.MessagesRecord | src/server.js:79-153 | after a run of messages the record is the handler's run over them |
| NodeServer.MessagesFanout | src/server.js:149-152 | the subscribers after a run of messages are those after one `cueUpdate` broadcast per message, each with the record after it |
| NodeServer.MessagesDeliverTrace | src/server.js:149-152 | a display present throughout a run receives exactly one `cueUpdate` per message, with the record after that message, in order |
| NodeServer.LateJoinerAgrees | src/server.js:49-55 | a display that connects after N messages is sent the record of the Nth broadcast |
| NodeServer.ConvergedStep | src/server.js:49-153 | each connect, disconnect or message leaves every open display last sent the current record |
| NodeServer.ConvergedRun | src/server.js:49-153 | from any converged state, every run of events keeps every open display showing the current record |
| NodeServer.ClosedStaysSilent | src/server.js:49-69 | whatever happens, no subscriber is dropped; each keeps its position, and what it was sent stays a prefix of what it is sent; a closed one never reopens and is never sent anything again |
| NodeServer.CueServer.constructor | src/server.js:27-38 | the server starts with the initial record and no display |
| NodeServer.CueServer.OnConnection | src/server.js:49-55 | the connection handler produces exactly `ServerConnect` |
| NodeServer.CueServer.OnClose | src/server.js:57-59 | the close handler produces exactly `ServerClose` |
| NodeServer.CueServer.OnMessage | src/server.js:79-153 | the message handler and its broadcast produce exactly `ServerMessage` |
| DisplayApp.Tagged | cue-display-app/main.js:47-51 | an interface lists at most one entry per address, each tagged with its name |
| DisplayApp.ExternalV4 | cue-display-app/main.js:43-54 | every listed entry is tagged with the name of some interface; `ExternalV4Members` states which entries; `ExternalV4Append` and `TaggedAppend` state the order, across and within interfaces |
| DisplayApp.TaggedMembers | cue-display-app/main.js:47-51 | an interface lists exactly its external IPv4 addresses, tagged with its name |
| DisplayApp.ExternalV4Members | cue-display-app/main.js:43-54 | an entry is listed exactly when some interface has it as a non-internal IPv4 address, tagged with that interface's name |
| DisplayApp.TaggedAppend | cue-display-app/main.js:47-51 | within one interface, entries follow the enumeration order of its addresses |
| DisplayApp.ExternalV4Append | cue-display-app/main.js:46-52 | entries come in interface enumeration order |
| DisplayApp.GetLocalIps | cue-display-app/main.js:43-54 | the nested loops return exactly the listing |
| DisplayApp.StatusOf | cue-display-app/main.js:253-258 | the status carries the record's `connected` and `lastUpdate` |
| DisplayApp.StatusAfterRun | cue-display-app/main.js:113-114 | before any message the status is disconnected and never updated; after messages it is connected at the last one's time |
| DisplayApp.CueDisplayApp.constructor | cue-display-app/main.js:12-27 | the app starts with the initial record and no WebSocket server |
| DisplayApp.CueDisplayApp.StartServer | cue-display-app/main.js:67-71 | starting the server creates an empty registry |
| DisplayApp.CueDisplayApp.Broadcast | cue-display-app/main.js:57-65 | without a registry nothing happens; otherwise every open display gets the frame |
| DisplayApp.CueDisplayApp.OnConnection | cue-display-app/main.js:87-98 | a new display gets the `state` snapshot, as in the server |
| DisplayApp.CueDisplayApp.OnClose | cue-display-app/main.js:95-97 | a disconnect closes only that display |
| DisplayApp.CueDisplayApp.OnMessage | cue-display-app/main.js:108-170 | the record becomes `JsStep` of the old one, and one `cueUpdate` goes to the open displays when the registry exists |
| DisplayApp.CueDisplayApp.GetOscStatus | cue-display-app/main.js:253-258 | the query answers exactly the current `connected` and `lastUpdate` |
| TauriCue.RsDispatch | gma3-cue-display-tauri/src-tauri/src/lib.rs:164-190 | the action block never touches `connected` or `last_update`; only a pattern hit changes the sequence name; it sets `is_active` exactly on a string trigger verb; a non-trigger leaves the name and number alone; a trigger leaves the progress alone |
| TauriCue.RsStep | gma3-cue-display-tauri/src-tauri/src/lib.rs:156-189 | every message sets `connected` and `last_update`; only a string `args[0]` is an action; a string `args[2]` is the name; a hit sets the sequence name from group 1 and the number from group 2; a numeric `args[1]` replaces only exactly `"--"`; `FaderMaster` needs a float `args[2]` |
| TauriCue.RsStepIdempotent | gma3-cue-display-tauri/src-tauri/src/lib.rs:156-189 | handling the same message twice at the same time is handling it once |
| TauriCue.AddressIgnored | gma3-cue-display-tauri/src-tauri/src/lib.rs:156-189 | the address never influences the record |
| TauriCue.RsRunMonotone | gma3-cue-display-tauri/src-tauri/src/lib.rs:157-158 | `connected` and `is_active` never return to false; `last_update` is the last message's time |
| TauriCue.RsNumberSticky | gma3-cue-display-tauri/src-tauri/src/lib.rs:176-182 | a number other than `"--"` is only replaced by a pattern hit |
| TauriCue.NamedCueExample | gma3-cue-display-tauri/src-tauri/src/lib.rs:163-172 | `"Intro Song 5 Verse 1"` gives sequence name `"Intro Song"` and number `5` |
| TauriCue.EmptyNumberDiverges | gma3-cue-display-tauri/src-tauri/src/lib.rs:176 | an empty number is filled by the JavaScript handler and kept by the Rust one |
| TauriCue.NonStringActionDiverges | gma3-cue-display-tauri/src-tauri/src/lib.rs:161 | a trigger verb in a non-string argument triggers only the JavaScript handler |
| TauriCue.SequenceNameDiverges | gma3-cue-display-tauri/src-tauri/src/lib.rs:168-171 | on a hit the Rust label is group 1 while the JavaScript label follows the address; both see the same hit |
| TauriCue.EntryOf | gma3-cue-display-tauri/src-tauri/src/lib.rs:134-138 | the log entry has the receive time and the address, and its arguments are the source arguments each mapped by `LogArg`, in order |
| TauriCue.RsParse | gma3-cue-display-tauri/src-tauri/src/lib.rs:103-202 | the record becomes `RsStep` of the old one; the entry is pushed on the log; every open display gets exactly two frames, the `oscLog` entry then the `cueUpdate` with the new record |
| TauriCue.RsConnect | gma3-cue-display-tauri/src-tauri/src/lib.rs:237-248 | a new display gets the `state` snapshot; record and log are unchanged |
| TauriCue.RsDatagram | gma3-cue-display-tauri/src-tauri/src/lib.rs:213-225 | an undecodable datagram changes nothing; a message is parsed once |
| TauriCue.MessageCount | gma3-cue-display-tauri/src-tauri/src/lib.rs:219-223 | a bundle has at most as many messages as elements |
| TauriCue.RsBundle | gma3-cue-display-tauri/src-tauri/src/lib.rs:219-223 | the loop over a bundle adds and drops no subscriber, changes no open flag and sends nothing to a closed one; `BundleRecord`, `BundleLog` and `BundleSent` state what it does to the record, the log and the open subscribers |
| TauriCue.BundleMessages | gma3-cue-display-tauri/src-tauri/src/lib.rs:219-223 | the direct messages of a bundle, one per message element, in order |
| TauriCue.Entries | gma3-cue-display-tauri/src-tauri/src/lib.rs:134-138 | one log entry per message, in order |
| TauriCue.RsRunSnoc | gma3-cue-display-tauri/src-tauri/src/lib.rs:219-223 | handling one more message after a run is one more `RsStep` |
| TauriCue.PushAllSnoc | gma3-cue-display-tauri/src-tauri/src/lib.rs:140-146 | logging one more entry after a run is one more `Pushed` |
| TauriCue.BundleRecord | gma3-cue-display-tauri/src-tauri/src/lib.rs:219-223 | the record after a bundle is the record after its direct messages, one after the other, at their own times |
| TauriCue.BundleLog | gma3-cue-display-tauri/src-tauri/src/lib.rs:219-223 | the log after a bundle is the log after pushing its direct messages' entries in order |
| TauriCue.NestedBundleIgnored | gma3-cue-display-tauri/src-tauri/src/lib.rs:219-223 | a nested bundle in a bundle changes nothing |
| TauriCue.RsSent | gma3-cue-display-tauri/src-tauri/src/lib.rs:193-199 | two frames per message, for each its `oscLog` entry then the `cueUpdate` with the record after it |
| TauriCue.RsSentSnoc | gma3-cue-display-tauri/src-tauri/src/lib.rs:218-224 | one more message adds its `oscLog` entry and the record after the whole run |
| TauriCue.BundleSent | gma3-cue-display-tauri/src-tauri/src/lib.rs:218-224 | every display open during a bundle gets, for each direct message in order, its `oscLog` entry then the record after it |
| TauriCue.BundleFrames | gma3-cue-display-tauri/src-tauri/src/lib.rs:218-224 | a bundle sends two frames per direct message to each open display, none to closed ones, and keeps the log within 100 |
| TauriCue.BundleConverged | gma3-cue-display-tauri/src-tauri/src/lib.rs:218-224 | after a bundle every open display was last sent the current record |
| TauriCue.DatagramConverged | gma3-cue-display-tauri/src-tauri/src/lib.rs:213-225 | datagrams and connections keep every open display in step with the record and the log within 100 |
| TauriCue.Backend.constructor | gma3-cue-display-tauri/src-tauri/src/lib.rs:59-72 | the backend starts with `cue_number` `"--"`, empty strings, zero progress, both flags false, no update, an empty log and no subscriber |
| TauriCue.Backend.ParseOscMessage | gma3-cue-display-tauri/src-tauri/src/lib.rs:103-202 | the in-place log push, the two broadcasts and the locked update give exactly `RsParse` |
| TauriCue.Backend.UpdateState | gma3-cue-display-tauri/src-tauri/src/lib.rs:155-192 | the field-by-field update under the lock gives exactly `RsStep` |
| TauriCue.Backend.Dispatch | gma3-cue-display-tauri/src-tauri/src/lib.rs:160-191 | the branch on `args[0]` updates exactly as `RsStep`'s action part |
| TauriCue.Backend.OnConnection | gma3-cue-display-tauri/src-tauri/src/lib.rs:237-248 | the WebSocket handler produces exactly `RsConnect` |
| TauriCue.Backend.OnDatagram | gma3-cue-display-tauri/src-tauri/src/lib.rs:213-225 | the receive step, including the loop over a bundle, produces exactly `RsDatagram` |

## Left out

- OSC binary decoding is done by the `osc` and `rosc` libraries. A datagram enters the model already decoded, or as a decode failure (`None`).
- Sockets, HTTP routes, static files, `/api/state`, `/api/osc-log` and `get-network-info` are left out. They are I/O with no state logic of their own.
- The WebSocket and broadcast-channel machinery is left out: sending is an append to an outbox. The tokio channel's capacity of 100 and lagging receivers are not modelled, and neither are the `RwLock` and the thread spawning.
- Closed connections stay in the subscriber list with their flag cleared. The `ws` library removes them, but either way nothing is sent to them.
- TauriCue.Backend.OnConnection: `handle_websocket` sends the snapshot and only then subscribes. The model treats the two steps as one atomic step, so it does not capture a broadcast lost between them.
- Wall-clock timestamps are an input (`now`, `clock`).
- JSON serialisation is left out, including `NaN` becoming `null`. Console logging is left out.
- JsCue.NumberText: floating-point arithmetic is not modelled. Floats are exact reals, `progress` is `value * 100` over the reals, and the text of a float is the parameter `floatText`. This parameter stands for JavaScript's `toString` in `JsCue` and for Rust's `f32::to_string` in `TauriCue`.
- Integers are unbounded. The source's `i32` values always print the same decimal text, so nothing depends on the width.
- CuePattern.IsWs: `\s` and `\d` are the ASCII classes. JavaScript's `\s` also covers Unicode spaces, and Rust's `\s` and `\d` are Unicode-aware.
- CuePattern.IsDot: `.` excludes `\n` and `\r`, as in JavaScript. JavaScript's `.` also excludes U+2028 and U+2029. Rust's `.` excludes only `\n`, so a cue name containing `\r` can match differently in the Rust copy.
- TauriCue.RsStep: the Rust early returns `Regex::new(..).ok()?` and `caps.get(..)?` are not modelled. The pattern is a valid constant, and groups 1 and 2 always take part in a match, so these returns are never taken.
- The desktop shell is left out: tray, menus, windows, the single-instance lock and login items. So is the `osc-status` push to the launcher window (`cue-display-app/main.js` lines 117-123), which informs the window and changes no state.
- `cue-display-app/window.js` and `cue-display-app/preload.js` are DOM and IPC glue and are not part of this model.
- Rust's `get_osc_status` and `get_network_info` are not part of this model. Of the Electron counterparts, `get-osc-status` and the `getLocalIPs` listing are modelled; the `get-network-info` handler is not.
- TauriCue.Backend: the Rust copy's WebSocket disconnect (`handle_websocket` aborting its send task) is not modelled, so `Backend` has no close event. Once a display's receiver is dropped it gets nothing more, as a closed subscriber in the Node model.
- The receive loop's `recv_from` errors are left out: they only log.
