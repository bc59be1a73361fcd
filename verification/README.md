# rmidi connection manager and channel switcher, in Dafny

This project models the sequential logic of rmidi, a small MIDI routing
utility built on CoreMIDI:

- the **connection manager** `MidiCon` in both of its variants. `src/midi_con.rs`
  is the base variant (module `BaseMidiCon`). `src/macos/midi_con.rs` is the
  macOS variant (module `MacMidiCon`). Each holds a driver client, index-keyed
  tables of open input and output ports, and, in the macOS variant, a single
  notification listener;
- the **channel switcher** of `examples/egui_nux.rs` (module `EguiNux`). It has
  a mask of seven enabled program channels and a selected channel. The `<<<`
  and `>>>` buttons move the selection cyclically to the nearest enabled
  channel. Each selection is announced to destination 0 as a program change
  `[0xC0, channel]`.

The host driver is abstract (module `Driver`):

- A `Directory` is one snapshot of the driver's enumeration. It holds a
  `seq<Option<string>>` of source names and one of destination names.
  Index `i` resolves exactly when it is below the length. `None` stands for
  an endpoint without a display name.
- Port handles, receive closures and notification listeners are opaque
  tokens (`nat`), supplied by the caller where the driver would create them.
- "Client present" is the boolean field `hasClient`.
- `send` does not write to a device. It returns the `Delivery` it hands to the
  driver: port, destination index and the packet. `send` therefore changes no
  manager state, and its effect is its result. The macOS `update_connections`
  likewise returns the listener it invokes.

Where the Rust code aborts through `unwrap`, the model has a precondition.
This covers a source or destination index that does not resolve in the base
variant, a source without a display name when `connect_source` prints it
(`println!`, which always runs), and a destination gone at send time. The
display name of a destination is only unwrapped inside `trace!`, which does
not evaluate its arguments unless trace logging is on; the model takes the
default log level, so an unnamed destination connects normally.

The channel search is specified without `%`:

- `Ahead`, `Behind` and `Dist` give cyclic positions and distances.
- `ForwardGap` and `BackwardGap` count the places to the first enabled channel.
- `IsNextForward` and `IsNextBackward` state what the buttons should select:
  the first enabled channel in that direction with every channel strictly
  between disabled, or the current channel when no other is enabled.

The methods `SearchForward` and `SearchBackward` keep the source's
`loop { next = (next ± 1) % len; if … break }`. Each is proved equal to the
specification function. The loop measure is the number of channels not yet
visited.

Notes on the code:

- Re-connecting an already connected source or destination replaces its table
  entry (`HashMap::insert`), dropping the old port.
- The macOS `connect_source` and `connect_destination` look the index up with
  `Source::from_index` / `Destination::from_index` and do nothing when it does
  not resolve.
- The base variant `unwrap`s the same lookups, so an unresolved index aborts.
- Neither variant has a `disconnect_destination`.
- `examples/egui_nux.rs` stores `list_sources()` in a `Vec<String>`, which is
  the base variant's signature. `App` therefore holds a `BaseMidiCon.MidiCon`.

## Model

| member | source | states |
|---|---|---|
| `Driver.DisplayNames` | src/midi_con.rs:70-77 | one name per endpoint, in driver order, the driver's name or "Unknown" when it has none |
| `BaseMidiCon.MidiCon.constructor` | src/midi_con.rs:22-37 | a new manager has a client and empty `in_ports` and `out_ports` |
| `BaseMidiCon.MidiCon.UpdateConnections` | src/midi_con.rs:40-42 | a notification changes no manager state |
| `BaseMidiCon.MidiCon.ConnectSource` | src/midi_con.rs:45-65 | requires the source index to resolve and be named (aborts otherwise); with a client, maps exactly that index to the new port and keeps every other `in_ports` entry, replacing an existing entry; without a client, changes nothing; `out_ports` untouched |
| `BaseMidiCon.MidiCon.ListSources` | src/midi_con.rs:68-78 | as many names as sources, name k is source k's display name or "Unknown" |
| `BaseMidiCon.MidiCon.ListDestinations` | src/midi_con.rs:81-91 | as many names as destinations, name k is destination k's display name or "Unknown" |
| `BaseMidiCon.MidiCon.ConnectDestination` | src/midi_con.rs:94-106 | requires the destination to resolve (aborts otherwise); with a client, maps exactly that index to the new port, keeping the other keys; `in_ports` untouched |
| `BaseMidiCon.MidiCon.Send` | src/midi_con.rs:109-122 | nothing is handed off iff the index has no output port; otherwise exactly `data` in one packet at timestamp 0, through that port, to that destination |
| `BaseMidiCon.MidiCon.DisconnectSource` | src/midi_con.rs:124-130 | removes exactly that key (nothing when absent), keeps the other entries, leaves `out_ports` alone |
| `MacMidiCon.Enumerate` | src/macos/midi_con.rs:85-100 | one row per endpoint in order: its index, its membership in the table, its display name or "Unknown" |
| `MacMidiCon.ListingAfterConnect` | src/macos/midi_con.rs:79-100 | adding key i to a table turns row i of the listing to connected and changes no other row |
| `MacMidiCon.ListingAfterDisconnect` | src/macos/midi_con.rs:85-161 | removing key i turns row i to not connected and changes no other row |
| `MacMidiCon.ListingNames` | src/macos/midi_con.rs:85-100 | the names column of a macOS listing is the base variant's name list |
| `MacMidiCon.MidiCon.constructor` | src/macos/midi_con.rs:26-45 | a new manager has a client, no listener and empty tables |
| `MacMidiCon.MidiCon.SetNotificationCallback` | src/macos/midi_con.rs:47-50 | the listener becomes the new one, replacing any previous one; tables and client unchanged |
| `MacMidiCon.MidiCon.UpdateConnections` | src/macos/midi_con.rs:52-58 | the current listener is invoked once iff one is set; nothing changes |
| `MacMidiCon.MidiCon.ConnectSource` | src/macos/midi_con.rs:61-82 | with a client and a live source, maps that index to (port, true), replacing an existing entry; otherwise a no-op; `out_ports` and listener untouched; every flag stays true |
| `MacMidiCon.MidiCon.ListSources` | src/macos/midi_con.rs:85-100 | row k is (k, k in `in_ports`, name or "Unknown"), one per source; no state change |
| `MacMidiCon.MidiCon.ListDestinations` | src/macos/midi_con.rs:103-118 | row k is (k, k in `out_ports`, name or "Unknown"), one per destination; no state change |
| `MacMidiCon.MidiCon.ConnectDestination` | src/macos/midi_con.rs:121-136 | with a client and a live destination, maps that index to (port, true); otherwise a no-op; `in_ports` untouched |
| `MacMidiCon.MidiCon.Send` | src/macos/midi_con.rs:139-153 | nothing is handed off iff the index has no output port; otherwise exactly `data` at timestamp 0 through the stored port to that destination |
| `MacMidiCon.MidiCon.DisconnectSource` | src/macos/midi_con.rs:155-161 | `in_ports` loses exactly that key (unchanged when absent); everything else unchanged |
| `MacMidiCon.ListenerReplacement` | src/macos/midi_con.rs:47-58 | after two registrations, a notification reaches only the second listener |
| `MacMidiCon.ConnectThenDisconnect` | src/macos/midi_con.rs:61-161 | connecting source i lists it as connected, disconnecting lists it as not connected, and the listing returns to what it was; other rows never change |
| `MacMidiCon.TwoSourceDirectory` | src/macos/midi_con.rs:61-100 | with sources "IAC Driver Bus 1" and "Keyboard", connecting source 0 turns only row 0 to connected |
| `MacMidiCon.ConnectLateSession` | examples/connect_late.rs:5-28 | connect sources 0 and 1, connect destination 0, send `[0xC0, 0x03]`, disconnect 1: exactly those bytes went to destination 0 and only source 0 is listed as connected |
| `EguiNux.ForwardGap` | examples/egui_nux.rs:104-110 | the forward search stops after at most `len` steps, at an enabled channel or back at the start, with every channel passed disabled |
| `EguiNux.NextForward` | examples/egui_nux.rs:103-111 | `>>>` selects a channel below `len` that is the first enabled one after the old selection (all channels strictly between disabled), or the old selection when no other channel is enabled |
| `EguiNux.ForwardStepCharacterised` | examples/egui_nux.rs:103-111 | that description holds of exactly one channel, the one `>>>` selects |
| `EguiNux.BackwardGap` | examples/egui_nux.rs:91-97 | the backward search stops after at most `len` steps, at an enabled channel or back at the start, with every channel passed disabled |
| `EguiNux.NextBackward` | examples/egui_nux.rs:90-98 | `<<<` selects the first enabled channel before the old selection (all channels strictly between disabled), or the old selection when no other is enabled |
| `EguiNux.BackwardStepCharacterised` | examples/egui_nux.rs:90-98 | that description holds of exactly one channel, the one `<<<` selects |
| `EguiNux.StaysWhenNoOtherEnabled` | examples/egui_nux.rs:90-111 | with no other channel enabled both buttons keep the selection, whether or not it is enabled itself |
| `EguiNux.ForwardThenBackward` | examples/egui_nux.rs:90-114 | `>>>` then `<<<` returns to the original channel when it is enabled |
| `EguiNux.BackwardThenForward` | examples/egui_nux.rs:90-114 | `<<<` then `>>>` returns to the original channel when it is enabled |
| `EguiNux.App.Default` | examples/egui_nux.rs:36-50 | a new manager, the source names, destination 0 connected (it must exist), all seven channels enabled, channel 0 selected |
| `EguiNux.App.SendProgramChange` | examples/egui_nux.rs:54-56 | exactly one packet `[0xC0, selected]` at timestamp 0 to destination 0 |
| `EguiNux.App.SearchForward` | examples/egui_nux.rs:104-110 | the `>>>` loop `next = (next + 1) % len` computes `NextForward` |
| `EguiNux.App.SearchBackward` | examples/egui_nux.rs:91-97 | the `<<<` loop `next = (next + len - 1) % len` computes `NextBackward` |
| `EguiNux.App.StepForward` | examples/egui_nux.rs:103-114 | the selection becomes `NextForward` of the old one, the mask is untouched, then one `[0xC0, new selection]` goes to destination 0 |
| `EguiNux.App.StepBackward` | examples/egui_nux.rs:90-101 | the selection becomes `NextBackward` of the old one, then one `[0xC0, new selection]` goes to destination 0 |
| `EguiNux.App.SelectChannel` | examples/egui_nux.rs:75-81 | a radio click selects channel i whatever the mask says and sends one `[0xC0, i]` to destination 0 |
| `EguiNux.App.ToggleChannel` | examples/egui_nux.rs:82-84 | a checkbox click flips `channels[i]` and nothing else |

## Left out

- CoreMIDI itself is not modelled: client creation, `input_port`, `output_port`, `InputPort::connect_source`, `PacketBuffer` and `OutputPort::send`. These are foreign calls. Their results are opaque tokens, and the bytes handed over are returned as a `Delivery`.
- A driver that refuses to create a client, open a port, connect a source or deliver a packet makes the Rust code abort. In the model these driver calls always succeed, so such aborts cannot happen.
- Locking and threading are not modelled. This covers the `Arc<Mutex<..>>` around the manager, the per-row locking inside the macOS `list_sources`, and input closures that relock the manager on the driver's delivery thread.
- Per-source receive closures are stored as opaque `ReceiverId` values and never run. The notification payload is not modelled: the relay only records which listener is invoked.
- The closure that `new` registers with the driver is not modelled. It calls `update_connections` on each notification; the model has `UpdateConnections` as an operation of its own.
- Logging is not modelled: `println!`, `trace!` and `env_logger`.
- GUI rendering, the menu, `CFRunLoop::run_current`, the trailing `loop {}` and the unused `show_settings` window are not modelled.
- `examples/windows_test.rs` is not part of this model. It is a Win32 FFI call with an empty callback.
- `examples/notifications.rs` and `examples/connect_late.rs` call `connect_source_by_index` and `connect_destination_by_index`. Neither registry defines these. `ConnectLateSession` replays the `connect_late.rs` sequence with `connect_source` and `connect_destination`.
- `BaseMidiCon.MidiCon.UpdateConnections`: its only contract is that it changes nothing, because the Rust function only prints the notification.
- `BaseMidiCon.MidiCon.ConnectDestination`: does not model the abort under trace logging: with `RUST_LOG="rmidi=trace"` (the setting suggested in examples/egui_nux.rs:5), `trace!` evaluates `destination.display_name().unwrap()`, and a destination without a display name then aborts after its port has been recorded. The model takes the default log level.
- `MacMidiCon.MidiCon.ConnectDestination`: does not model the abort under trace logging: with `RUST_LOG="rmidi=trace"` (the setting suggested in examples/egui_nux.rs:5), `trace!` evaluates `destination.display_name().unwrap()`, and a destination without a display name then aborts after its port has been recorded. The model takes the default log level.
- `EguiNux.App.Default`: does not model the abort under trace logging: with `RUST_LOG="rmidi=trace"` (the setting suggested in examples/egui_nux.rs:5), `trace!` evaluates `destination.display_name().unwrap()`, and a destination without a display name then aborts after its port has been recorded. The model takes the default log level.
