# Flirc IR remote — a Dafny model

`flirc_qt_ui.cpp` is a small Qt application that turns a window of buttons,
the mouse wheel and the middle mouse button into infrared transmissions through
a Flirc USB dongle. At start-up `main` opens the device (exit code -1 if that
fails). It then builds a fixed table `irCodes` that maps each action name to a
pair of captured pulse sequences, and connects 25 labelled buttons to
`RemoteWidget::buttonClicked`. It runs the Qt event loop and closes the device
at the end. Every trigger of a catalogued action flips a per-action flag in
`globalState` and hands one of the two sequences to `sendIRCode`, always at
2300 Hz with no repeats. `sendIRCode` refuses while the global handle is
negative; otherwise it submits exactly one `fl_transmit_raw` call on a
background task.

The model has four modules (plus the `Option` type in `wrappers.dfy`):

- `FlircDevice` (`device.dfy`) — the global handle and the vendor library as
  a class `DeviceSession`:
  - `InitializeDevice`, `CloseDevice` and `SendIRCode` update the handle, a
    count of close calls, and a log of every transmit call;
  - `uint16_t`/`uint8_t` are newtypes;
  - the narrowing `uint16_t len = code.size()` is written out.
- `Toggle` (`toggle.dfy`) — the toggle logic of `triggerAction` as pure
  functions, with lemmas about whole sequences of triggers:
  - flags stay 0 or 1;
  - a flag is the parity of its action's presses;
  - presses of one action alternate;
  - unknown actions are ignored;
  - only the triggered action's flag changes.
- `Remote` (`remote.dfy`) — `RemoteWidget` as a class whose `globalState`
  the handlers update, and `RunApplication`:
  - `RunApplication` is `main` around a given table, with Qt's event loop as
    a finite sequence of input events;
  - it is proved against `Toggle`'s functions with loop invariants.
- `Catalogue` (`catalogue.dfy`) — the `irCodes` table and the `buttonMap`
  labels:
  - the table is built from its initializer list by inserting the entries
    in order; `irCodes` has no repeated key, so which of two equal keys a
    `std::map` would keep does not matter here (the model keeps the first);
  - `RunRemote` is `main` with that table.

Note on the order of the toggle. Line 97 flips the action's flag, and line
98 then reads the flipped flag to choose the sequence: `.first` when it is
now 1, `.second` when it is now 0. Since a flag starts at 0, the first press
of an action sends `.second`, and presses then alternate `.second`,
`.first`, `.second`, and so on (`Toggle.Selected`, `Toggle.Alternation` and
`Catalogue.PowerPressedThrice`).

Note on `closeDevice`. It only acts on a non-negative handle. After a failed
open, `main` returns -1 without calling it, and the handle keeps the negative
value `fl_open_device` returned; it is not reset to -1.

## Model

| member | source | states |
|---|---|---|
| FlircDevice.NarrowLength | flirc_qt_ui.cpp:45 | the length passed to the transmit primitive is the true length whenever that is below 65536, and never more than it |
| FlircDevice.CompletionReport | flirc_qt_ui.cpp:49-57 | the report of a submitted transmit is a failure exactly when the vendor's result is negative, and a success otherwise |
| FlircDevice.DeviceSession.constructor | flirc_qt_ui.cpp:15 | the process starts with handle -1, nothing transmitted and nothing closed |
| FlircDevice.DeviceSession.InitializeDevice | flirc_qt_ui.cpp:18-26 | the handle becomes the open result, and success is reported exactly when it is non-negative |
| FlircDevice.DeviceSession.CloseDevice | flirc_qt_ui.cpp:29-35 | the handle ends negative; an open handle costs exactly one close call and becomes -1; otherwise nothing changes |
| FlircDevice.DeviceSession.SendIRCode | flirc_qt_ui.cpp:38-62 | it submits exactly when the handle is non-negative, and only then returns a report, the `CompletionReport` of the vendor's result; a submission appends exactly one transmit of the code with its narrowed length whatever the vendor answers (one attempt, no retry); a refusal leaves the log unchanged |
| FlircDevice.CloseTwice | flirc_qt_ui.cpp:29-35 | closing is idempotent: two closes after any open call the close primitive at most once, after a successful open exactly once |
| Toggle.NextState | flirc_qt_ui.cpp:96-97 | an action missing from the table leaves the flags unchanged; a catalogued one gets the complement of its previous flag (a missing key reads as 0) |
| Toggle.NextStateFrame | flirc_qt_ui.cpp:97 | a trigger changes no other action's flag, adds no key but its own, and keeps every flag 0 or 1 |
| Toggle.Selected | flirc_qt_ui.cpp:95-100 | something is sent exactly for catalogued actions: `.first` when the flag was 1 before the trigger, `.second` otherwise |
| Toggle.StateAfterBinary | flirc_qt_ui.cpp:97 | starting from 0/1 flags, any sequence of triggers leaves every flag 0 or 1 |
| Toggle.UntriggeredUnchanged | flirc_qt_ui.cpp:93-97 | an action that is never triggered keeps its flag, so from the empty map it reads as 0 |
| Toggle.FlagIsParity | flirc_qt_ui.cpp:97 | a catalogued action's flag is its starting flag plus the number of its presses, modulo 2, whatever else is interleaved |
| Toggle.PressSendsByParity | flirc_qt_ui.cpp:97-98 | from a 0 flag, a press sends `.second` after an even number of earlier presses of that action and `.first` after an odd number |
| Toggle.AlternatingAt | flirc_qt_ui.cpp:97-98 | in the alternation, position i holds `.second` for even i and `.first` for odd i |
| Toggle.Alternation | flirc_qt_ui.cpp:95-100 | repeated presses of one catalogued action from a 0 flag send `.second`, `.first`, `.second`, ... with period 2 |
| Toggle.ThreePresses | flirc_qt_ui.cpp:97-98 | the first three presses of a catalogued action from the empty map send `.second`, `.first`, `.second` |
| Toggle.UnknownActionsAreIgnored | flirc_qt_ui.cpp:96 | triggering only names missing from the table changes no flag and sends nothing |
| Toggle.StateAfterConcat | flirc_qt_ui.cpp:95-100 | triggering two runs of actions one after the other gives the same flags as triggering their concatenation |
| Toggle.SentAfterConcat | flirc_qt_ui.cpp:95-100 | what a concatenation of runs sends is what the first run sends followed by what the second sends from the flags the first left |
| Toggle.SentIsTransmittable | flirc_qt_ui.cpp:98 | everything sent from a well-formed table is non-empty and shorter than 65536 |
| Remote.WheelAction | flirc_qt_ui.cpp:72-78 | a positive vertical delta triggers "Up", a negative one "Down", and zero triggers nothing, each as an if-and-only-if |
| Remote.MousePressAction | flirc_qt_ui.cpp:80-84 | "Select" is triggered exactly for the middle button, and nothing for any other |
| Remote.WireConcat | flirc_qt_ui.cpp:98 | the transmit calls for two runs of sends are the calls of the first run followed by those of the second |
| Remote.TransmissionsUseFixedCarrier | flirc_qt_ui.cpp:98 | every transmit from a well-formed table uses 2300 Hz, 0 repeats and the untruncated, non-empty length of its data |
| Remote.RemoteWidget.constructor | flirc_qt_ui.cpp:67-69 | the widget holds the given table and session, and starts with no flags |
| Remote.RemoteWidget.TriggerAction | flirc_qt_ui.cpp:95-100 | the flags advance by one trigger of the action and stay 0 or 1; the log grows by the selected sequence's transmit while the device is open, and by nothing while it is not; a report comes back exactly for a catalogued action on an open device, and it is the `CompletionReport` of the vendor's result |
| Remote.RemoteWidget.ButtonClicked | flirc_qt_ui.cpp:87-89 | a click of a labelled button acts as one trigger of its label; a report comes back exactly when a transmit was submitted, and it is the `CompletionReport` of the vendor's result |
| Remote.RemoteWidget.WheelEvent | flirc_qt_ui.cpp:72-78 | a wheel turn acts as the trigger `WheelAction` selects: "Up", "Down" or none; a report comes back exactly when a transmit was submitted, and it is the `CompletionReport` of the vendor's result |
| Remote.RemoteWidget.MousePressEvent | flirc_qt_ui.cpp:80-84 | a mouse press acts as the trigger `MousePressAction` selects: "Select" for the middle button, none otherwise; a report comes back exactly when a transmit was submitted, and it is the `CompletionReport` of the vendor's result |
| Remote.RemoteWidget.Dispatch | flirc_qt_ui.cpp:260-270 | delivering any input event advances the flags and the log by that event's triggers, in order; a report comes back exactly when a transmit was submitted, and it is the `CompletionReport` of the vendor's result |
| Remote.DeliverOneMore | flirc_qt_ui.cpp:270 | delivering one more event continues the flags from the earlier events and appends that event's transmits |
| Remote.RunApplication | flirc_qt_ui.cpp:103-274 | whatever the vendor answers to each transmit, a failed open exits with -1, having transmitted and closed nothing; otherwise it returns the event loop's result, closes exactly once, and transmits exactly what the toggle functions send for the triggered actions, in order |
| Catalogue.Table | flirc_qt_ui.cpp:112-169 | the map an initializer list builds by inserting its entries in order; its first entry is always stored as written |
| Catalogue.Insert | flirc_qt_ui.cpp:112 | inserting adds the key; a key already present keeps its value; every other key keeps its value |
| Catalogue.TableKeys | flirc_qt_ui.cpp:112-169 | the built map has exactly the keys its initializer list names |
| Catalogue.TableFirstWins | flirc_qt_ui.cpp:112-169 | the value under a key is that of its first entry in the list |
| Catalogue.TableWellFormed | flirc_qt_ui.cpp:112-169 | a list of transmittable entries builds a well-formed table |
| Catalogue.JoinEntries | flirc_qt_ui.cpp:112-169 | joining two lists joins their keys in order and keeps every entry transmittable |
| Catalogue.Block1 | flirc_qt_ui.cpp:113-122 | the entries for Power, Mode, Up, Down and Left, each with two transmittable sequences |
| Catalogue.Block2 | flirc_qt_ui.cpp:123-132 | the entries for Right, Select, Volume -, Volume + and Record, each with two transmittable sequences |
| Catalogue.Block3 | flirc_qt_ui.cpp:133-144 | the entries for Pause/Mute, Bookmark, Favorite, 1 and 2, each with two transmittable sequences |
| Catalogue.Block4 | flirc_qt_ui.cpp:145-156 | the entries for 3 to 7, each with two transmittable sequences |
| Catalogue.Block5 | flirc_qt_ui.cpp:157-168 | the entries for 8, 9, 0, Jump and Display, each with two transmittable sequences |
| Catalogue.EntriesTransmittable | flirc_qt_ui.cpp:112-169 | every sequence in the `irCodes` list is non-empty and shorter than 65536 |
| Catalogue.EntryNames | flirc_qt_ui.cpp:112-169 | the keys of the `irCodes` list are those of its five blocks, in source order |
| Catalogue.ButtonLabels | flirc_qt_ui.cpp:232-258 | `buttonMap` connects 25 buttons |
| Catalogue.IrCodes | flirc_qt_ui.cpp:112-169 | the `irCodes` table, built from the 25 entries of lines 113-168; every entry holds two non-empty sequences whose length fits `uint16_t` |
| Catalogue.LabelsAreEntryNames | flirc_qt_ui.cpp:232-258 | the button labels are exactly the keys listed for `irCodes` |
| Catalogue.LabelsMatchCatalogue | flirc_qt_ui.cpp:232-258 | every button label has an `irCodes` entry and every entry has a button |
| Catalogue.InputsMatchCatalogue | flirc_qt_ui.cpp:72-84 | in any table that holds every button label, which `irCodes` does, the wheel and the middle click only trigger catalogued actions |
| Catalogue.PowerEntry | flirc_qt_ui.cpp:113-114 | "Power" is catalogued, with the pair of line 113 |
| Catalogue.PowerPressedThrice | flirc_qt_ui.cpp:113-114 | three presses of Power from start-up send its `.second`, `.first`, `.second`, in that order |
| Catalogue.RunRemote | flirc_qt_ui.cpp:103-274 | `main` with its own table, whatever the vendor answers to each transmit: a failed open exits with -1, sending and closing nothing; otherwise it closes exactly once and transmits exactly the toggle sequence, always at 2300 Hz with 0 repeats and the full, non-empty length of a catalogued sequence |

## Left out

- Widget construction, grid layout, window title and `show` (lines 171-228 and 266-268): they have no behaviour beyond wiring, and the wiring is `ButtonLabels` plus `ButtonClicked`.
- Console output and the timing of `fl_transmit_raw` with `std::chrono` (lines 21, 24, 33, 40, 47-60): I/O and a clock, so they are not modelled. The success or failure message of lines 53-57 is the `Report` that `SendIRCode` returns, not printed text.
- `QtConcurrent::run` asynchrony: each accepted transmit is an atomic, in-order append to the session log. Interleaving of background tasks, their completion order, and the missing serialisation of concurrent `fl_transmit_raw` calls are not modelled.
- The vendor primitives are foreign code:
  - the result of `fl_open_device` is a parameter;
  - the result of `fl_transmit_raw` is a parameter of `SendIRCode` (in `RunApplication`, one answer per event). It becomes the returned `CompletionReport` and is not recorded in the log;
  - `fl_close_device` is counted, not executed.
- `app.exec()` becomes a finite sequence of input events delivered in order, and its return value is a parameter.
- `RemoteWidget::irCodes` is a const reference to `main`'s local map. The model keeps it as an immutable value, so no aliasing is modelled.
- A `QString` is a `string`, with no encoding. Mouse buttons other than left, right and middle are folded into `OtherButton`. Only the vertical component of `angleDelta` is modelled.
- FlircDevice.NarrowLength: the wrap-around of `uint16_t len` is written out, but no catalogued sequence is long enough to reach it.
- Catalogue.InputsMatchCatalogue: stated for any table that holds every button label. For `irCodes` itself it follows together with `LabelsMatchCatalogue`; the combined statement is not written as one lemma.
