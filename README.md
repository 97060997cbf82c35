# Seat-gated input access, modelled in Dafny

This project models the logic of a collection of demos that read input
devices from inside a login session. The demos use libseat, libinput and
systemd-logind. Every library call becomes an abstract outcome: a record
of start-up results, a script of loop wakes, a sequence of `read` results,
a probe per device node, or an environment map.

The three parts modelled are:

- **The seat-gated libinput event loop** (`refferences/libseat+libinput/input_reader.c`):
  - the one-bit `running` flag set by the enable-seat and disable-seat callbacks;
  - the classification switch of `print_event`;
  - start-up with cleanup on failure, and the initial drain;
  - the poll / seat-dispatch / input-drain loop;
  - the exit code and the cleanup order.

  Modules `SeatSession`, `LibinputEvents`, `InputReader` and `InputReaderProps`.
- **The evdev decoding and the logind device flow** (`refferences/systemd-d-bus/sysd_login.c`):
  - the `event_type_name` and `key_name` tables and the key-value label;
  - the counting read loop `read_input_events`;
  - the first-match keyboard probe `find_keyboard_device`, with its bounded, NUL-terminated copy;
  - the `TakeDevice` → read-unless-paused → `ReleaseDevice` → close sequence of the `org.freedesktop.login1.Session` interface, with a fallback to a direct open.

  Modules `Evdev`, `ReadEvents`, `KeyboardProbe` and `LogindDevice`.
- **The session access gate** (`src/input/mod.rs`): `open_via_logind`, and the `Interface` that libinput calls to open and close devices. Module `SessionAccess`.

Imperative code is modelled as methods. Each method is proved equal to a specification function:
- `Drain`, `BuildPollSet`, `RunWake`, `MainLoop` and `RunInputReader`, against `ClassifyAll`, `PollSet`, `WakeSpec`, `LoopSpec` and `RunSpec`;
- `ReadInputEvents` against `ReadLoop`;
- `FindKeyboardDevice` against `FirstKeyboard` and `NulTerminatedCopy`;
- `DeviceControlAndAccess` against `DemoSpec`.

The properties are proved as lemmas about those functions. `struct input_context` is a class, and the callbacks update its `running` field in place.

The libinput event type numbers are the values of `enum libinput_event_type` in libinput's public header, which is not part of this model. The evdev codes are those of the Linux header `include/uapi/linux/input-event-codes.h`.

The comment on the disable callback (`input_reader.c`, line 71) calls a disable the session becoming inactive. It does not pause the loop: the loop condition `ctx.running && !should_exit` makes a disable end the loop, and the program cleans up and exits. The model follows the code (`InputReaderProps.DisableEndsLoop`).

## Model

| member | source | states |
|---|---|---|
| SeatSession.InputContext.constructor | refferences/libseat+libinput/input_reader.c:181 | `struct input_context ctx = {0}`: no handle held, not running |
| SeatSession.InputContext.HandleEnableSeat | refferences/libseat+libinput/input_reader.c:64-69 | the enable callback sets `running` to 1 and leaves every other field unchanged |
| SeatSession.InputContext.HandleDisableSeat | refferences/libseat+libinput/input_reader.c:72-77 | the disable callback sets `running` to 0 and leaves every other field unchanged |
| SeatSession.AfterNoticesIsLast | refferences/libseat+libinput/input_reader.c:64-77 | after a run of callbacks the flag holds what the last callback wrote: 1 exactly when it was an enable; no callback leaves it unchanged |
| SeatSession.DispatchNotices | refferences/libseat+libinput/input_reader.c:273-277 | `libseat_dispatch` runs the callbacks in order on the live context; only `running` changes |
| LibinputEvents.Classify | refferences/libseat+libinput/input_reader.c:85-165 | each of the nine known tags gets its own case and every other tag falls to the default arm carrying the number; the tag and device are kept; a key or button is pressed iff its state equals PRESSED; the motion, scroll and touch payloads pass through unchanged |
| LibinputEvents.ClassifyAll | refferences/libseat+libinput/input_reader.c:287-290 | a queue is classified one output per event, in order |
| LibinputEvents.ClassifyAllAppend | refferences/libseat+libinput/input_reader.c:287-290 | classifying two queues one after the other equals classifying their concatenation |
| LibinputEvents.ClassifySeparatesTags | refferences/libseat+libinput/input_reader.c:85-165 | raw events with distinct tags are never classified alike |
| InputReader.EventQueue.Dispatch | refferences/libseat+libinput/input_reader.c:281-285 | `libinput_dispatch` queues what arrived behind what is pending and returns a negative value exactly on failure |
| InputReader.EventQueue.GetEvent | refferences/libseat+libinput/input_reader.c:287 | `libinput_get_event` yields the oldest queued event and removes it, or NULL on an empty queue |
| InputReader.Drain | refferences/libseat+libinput/input_reader.c:287-290 | the drain handles every queued event exactly once, in queue order, and leaves the queue empty |
| InputReader.PollSet | refferences/libseat+libinput/input_reader.c:243-257 | the poll set has 1 or 2 entries, the input descriptor in slot 0 and the seat descriptor in slot 1 iff `libseat_get_fd` returned one ≥ 0 |
| InputReader.BuildPollSet | refferences/libseat+libinput/input_reader.c:243-257 | filling `fds[2]` and `nfds` yields exactly `PollSet` |
| InputReader.Cleanup | refferences/libseat+libinput/input_reader.c:297-306 | cleanup releases exactly the non-null handles, in the order libinput, seat, udev |
| InputReader.CleanupContext | refferences/libseat+libinput/input_reader.c:297-306 | the cleanup block over the live context performs `Cleanup` of the context's handles |
| InputReader.InputTurn | refferences/libseat+libinput/input_reader.c:281-290 | the input turn dispatches, fails iff dispatch fails, and otherwise handles exactly the classified arrivals, leaving the queue empty |
| InputReader.ServiceReady | refferences/libseat+libinput/input_reader.c:272-291 | after a ready poll the seat turn runs first, and the actions, the new `running` and the exit decision are those `ReadySpec` gives |
| InputReader.RunWake | refferences/libseat+libinput/input_reader.c:243-291 | one pass of the loop body over the live context and queue performs the actions of `WakeSpec`, sets `running` as it says and leaves the queue empty |
| InputReader.MainLoop | refferences/libseat+libinput/input_reader.c:241-292 | the loop run from `running = 1` performs exactly the actions of `LoopSpec` and exits when it says |
| InputReader.RunInputReader | refferences/libseat+libinput/input_reader.c:177-309 | `main` performs the actions and returns the exit code of `RunSpec` |
| InputReaderProps.WakeSeatBeforeInput | refferences/libseat+libinput/input_reader.c:273-291 | a pass polls once and first; every seat dispatch precedes every input dispatch and handled event |
| InputReaderProps.WakeRetriesOnTimeoutOrEintr | refferences/libseat+libinput/input_reader.c:259-270 | a timeout or an EINTR poll error returns to the loop head having only polled |
| InputReaderProps.WakeLeavesOnPollError | refferences/libseat+libinput/input_reader.c:261-265 | any other poll error leaves the loop without dispatching |
| InputReaderProps.WakeHandlesExactlyArrived | refferences/libseat+libinput/input_reader.c:281-290 | the events handled in a pass are exactly those dispatch queued, in order, when input is drained, and none otherwise |
| InputReaderProps.DisableEndsLoop | refferences/libseat+libinput/input_reader.c:241-292 | a pass whose last seat callback is a disable ends the loop after that pass |
| InputReaderProps.LoopHeadCondition | refferences/libseat+libinput/input_reader.c:242 | the loop is left at once when `running` is 0 or an exit was requested |
| InputReaderProps.WakePollsOnce | refferences/libseat+libinput/input_reader.c:259 | each pass polls exactly once |
| InputReaderProps.LoopPolls | refferences/libseat+libinput/input_reader.c:243-259 | every poll has 1 or 2 descriptors with the input in slot 0; the loop polls at most once per wake, and once per wake while it has not exited |
| InputReaderProps.RunExitCode | refferences/libseat+libinput/input_reader.c:182-294 | the exit code is EXIT_FAILURE iff a start-up step failed, and EXIT_SUCCESS for every exit of the main loop, whatever its reason |
| InputReaderProps.RunCleansUp | refferences/libseat+libinput/input_reader.c:297-306 | a finished run ends by releasing exactly the handles start-up obtained |
| InputReaderProps.RunHandlesInitialFirst | refferences/libseat+libinput/input_reader.c:232-238 | a run handles the initial detection events, in order, before those of the loop |
| InputReaderProps.RunIgnoresOpenNotices | refferences/libseat+libinput/input_reader.c:241 | `running` is forced to 1 before the loop: the callbacks run while the seat opens change nothing |
| Evdev.EventTypeName | refferences/systemd-d-bus/sysd_login.c:426-438 | eight named types, each with its own name that `EventTypeCode` maps back, and "UNKNOWN" exactly for every other value |
| Evdev.NatDigits | refferences/systemd-d-bus/sysd_login.c:455 | `%d` writes at least one decimal digit and no leading zero |
| Evdev.DecimalRoundTrip | refferences/systemd-d-bus/sysd_login.c:455 | parsing the decimal rendering of any integer gives it back |
| Evdev.DecimalOfInt32Length | refferences/systemd-d-bus/sysd_login.c:455 | a C `int` renders in 1 to 11 characters |
| Evdev.KeyName | refferences/systemd-d-bus/sysd_login.c:440-460 | the fixed name for the eleven listed codes, "KEY_" and the decimal code otherwise; it always fits the 32-byte buffer with its NUL, and `ParseKeyName` reads the code back; the part after the first four characters is a decimal number exactly for the unlisted codes, which pins each listed code to its fixed name |
| Evdev.KeyNameInjective | refferences/systemd-d-bus/sysd_login.c:440-460 | distinct codes get distinct names |
| Evdev.KeyValueLabel | refferences/systemd-d-bus/sysd_login.c:404 | value 0 is RELEASE, 1 is PRESS, any other value REPEAT, each iff |
| Evdev.Describe | refferences/systemd-d-bus/sysd_login.c:396-406 | a counted event is shown with its type name ("UNKNOWN" for an unnamed type), plus, exactly for EV_KEY, the key's `KeyName` and the label of its value |
| ReadEvents.ReadInputEvents | refferences/systemd-d-bus/sysd_login.c:386-421 | the read loop returns the count, the lines and the stop reason of `ReadLoop` |
| ReadEvents.ReadLoopFacts | refferences/systemd-d-bus/sysd_login.c:393-420 | each counted read adds one; the count never passes the limit; the lines are those of the counted reads consumed, in order; the stop reason is limit, hard error (on the last read) or end of reads |
| ReadEvents.ReadInputEventsBounds | refferences/systemd-d-bus/sysd_login.c:388-420 | the result is between 0 and `max_events`, 0 with no read when `max_events <= 0`, and equals the number of lines shown |
| ReadEvents.ReadSkips | refferences/systemd-d-bus/sysd_login.c:395-417 | a SYN event, a would-block error and a short read are consumed without counting and without stopping |
| ReadEvents.ReadStopsOnHardError | refferences/systemd-d-bus/sysd_login.c:409-416 | any other read error stops the loop with the count so far |
| KeyboardProbe.FirstKeyboardFrom | refferences/systemd-d-bus/sysd_login.c:363-378 | the search result, when there is one, is a valid candidate index |
| KeyboardProbe.FirstKeyboardFromIsFirst | refferences/systemd-d-bus/sysd_login.c:363-380 | the search finds nothing iff no candidate supports key events, and otherwise the first one in order that does |
| KeyboardProbe.FirstKeyboardIsFirst | refferences/systemd-d-bus/sysd_login.c:363-380 | the same over all five candidates event0..event4 |
| KeyboardProbe.CopyReadsBack | refferences/systemd-d-bus/sysd_login.c:371-372 | the copied buffer ends in NUL and reads back as the path cut to `path_size - 1` characters, the whole path when it fits |
| KeyboardProbe.StrNCopy | refferences/systemd-d-bus/sysd_login.c:371 | `strncpy` copies up to `n` characters, NUL-pads to `n` and leaves the rest of the buffer alone |
| KeyboardProbe.FindKeyboardDevice | refferences/systemd-d-bus/sysd_login.c:352-381 | returns 0 and copies the first key-capable candidate, bounded and NUL-terminated, or -1 with the buffer untouched |
| LogindDevice.SessionPath | refferences/systemd-d-bus/sysd_login.c:234-235 | the session object path is the prefix plus the session id when that fits the 256-byte buffer, and otherwise its first 255 characters |
| LogindDevice.DeviceControlAndAccess | refferences/systemd-d-bus/sysd_login.c:197-347 | the demo returns the value and performs the device operations of `DemoSpec`, on the path its probe copied |
| LogindDevice.DemoReturnValue | refferences/systemd-d-bus/sysd_login.c:209-231 | a failing session lookup, keyboard search or bus connection returns its negative result with no device operation; every other outcome returns 0 |
| LogindDevice.DemoStartsWithTake | refferences/systemd-d-bus/sysd_login.c:239-260 | device operations happen iff every earlier step succeeded, and the first is `TakeDevice` with the keyboard's numbers |
| LogindDevice.TakenDeviceIsReleased | refferences/systemd-d-bus/sysd_login.c:271-311 | after a readable take the device is released with the numbers it was taken with and the descriptor closed, last and in that order, paused or not; it is read once, limit 10, iff not paused |
| LogindDevice.FallbackOnTakeFailure | refferences/systemd-d-bus/sysd_login.c:262-324 | a failed take falls back to a read-only, non-blocking direct open of the same path, never releases, and reads (limit 5) and closes only when that open succeeds |
| LogindDevice.ReadsOnlyGrantedDescriptors | refferences/systemd-d-bus/sysd_login.c:283-324 | reads come only from an unpaused granted descriptor or a directly opened node, and never report more than their limit |
| LogindDevice.UnreadableReplyKeepsDevice | refferences/systemd-d-bus/sysd_login.c:274-278 | a take whose reply cannot be read goes to cleanup with no read, release or close |
| SessionAccess.AnyVarOk | src/input/mod.rs:29 | the `any` holds iff some listed variable is set to a Unicode value |
| SessionAccess.ReadWrite | src/input/mod.rs:36-40 | the open is read and write with the caller's flags as custom flags |
| SessionAccess.Errno | src/input/mod.rs:48 | an open error maps to its OS error number, or to EIO when it has none |
| SessionAccess.OpenViaLogind | src/input/mod.rs:26-50 | EACCES without a session; otherwise success iff the read-write open succeeds, with its descriptor, and on failure its errno or EIO |
| SessionAccess.RefusalIgnoresFileSystem | src/input/mod.rs:31-33 | outside a session the result is EACCES whatever the file system would do: no open is attempted |
| SessionAccess.OnlyReadWriteOpen | src/input/mod.rs:36-41 | the result depends on the file system only through the one read-write open of the path |
| SessionAccess.AnyOneVariableSuffices | src/input/mod.rs:28-29 | any one of the three variables opens the gate |
| SessionAccess.NonUnicodeIsNoSession | src/input/mod.rs:29 | in any environment where each session variable is unset or set to a non-Unicode value, the gate stays closed |
| SessionAccess.AnyVarOkMonotone | src/input/mod.rs:29 | setting more variables never closes the gate |
| SessionAccess.OpenRestricted | src/input/mod.rs:17-19 | `open_restricted` gives EACCES outside a session and otherwise the outcome of the read-write open; a descriptor it hands out joins the caller's owned set, and a failure leaves the set unchanged |
| SessionAccess.CloseRestricted | src/input/mod.rs:21-23 | `close_restricted` consumes the descriptor: it leaves the owned set and nothing else does |
| SessionAccess.OpenThenCloseRestores | src/input/mod.rs:17-23 | closing the descriptor a successful open handed out returns the owned set to what it was before the open; outside a session the set never grows |

## Left out

- Printing: every `printf` and `println!`, the banner text and the message strings are not modelled. The classified events and the `EventLine` records stand for what is printed.
- Floating-point payloads: the pointer deltas, the scroll values and the touch coordinates (transformed by libinput to 1920×1080) are carried as opaque `real`s, with no arithmetic.
- Foreign calls are outcomes, not behaviour: `poll`, `read`, `open`, `ioctl`, `stat`, `usleep`, and the internals of udev, libseat, libinput and sd-bus.
- The signal handler is not modelled as concurrency. The `should_exit` flag that SIGINT/SIGTERM set is an input read at each loop head.
- The main loop of `input_reader.c` can run forever. It is observed over a finite script of wakes; a run whose script ends while the loop would continue has no exit code and no cleanup.
- `open_restricted`/`close_restricted` in `input_reader.c` (opening devices through libseat): libseat's device handling is not part of this model.
- Sleeps: the 10 ms sleep before a would-block retry in `read_input_events`, and the 1000 ms poll timeout, are not modelled as time.
- A read of 0 bytes at end of file makes the C loop spin forever. With a finite script the model consumes it and moves on.
- `ReleaseDevice`'s result is only printed, so it is not modelled.
- `key_name` returns a `static` buffer that the next call overwrites. The model returns a fresh string each time.
- Closing the probe descriptors in `find_keyboard_device` is not tracked.
- The cleanup of `demo_device_control_and_access` is not modelled. Its calls do more than free memory:
  - `sd_bus_error_free` and `free` free the error and the session id;
  - `sd_bus_message_unref` frees the reply and closes any descriptor it carries;
  - `sd_bus_unref` closes the system-bus connection.
- `LogindDevice.DeviceControlAndAccess`: the reply is unreferenced after the read and before `ReleaseDevice`. That unref closes the descriptor the `TakeDevice` reply carried. The model does not record it, so its `CloseFd` step stands for the `close` call the code makes and not for closing a descriptor that is still open.
- `demo_session_info` and `main` in `sysd_login.c`, and the demos in `main.c` and `sd_bus.c`, only look up properties and print them. They are not part of this model.
- `src/main.rs` and `references/libseat-learing/src/main.rs` are endless loops over library iterators that panic on failure. They are not part of this model.
- `SessionAccess.OpenViaLogind`: the descriptor is a natural number. Rust's ownership of `OwnedFd` is modelled only through the owned set that `OpenRestricted` and `CloseRestricted` maintain.
