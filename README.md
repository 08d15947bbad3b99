# HDMI-CEC selection manager of the Amlogic TV framework, in Dafny

This project models `DroidLogicHdmiCecManager`, the component of the TV
framework that routes HDMI-CEC when the TV's main video source changes. The
platform reports that an input became the main source, or stopped being it.
The manager then decides between three routes:

- a *device-select*, by the source's CEC logical address;
- a *port-select*, by its HDMI port;
- a delayed device-select of the TV's own internal address.

It posts the chosen command to a single-threaded message queue. It also keeps
stale or flapping requests from undoing a fresh selection. Two smaller parts
share that queue:

- a settings observer that re-runs the device-select when CEC is switched back on;
- a key forwarder that sends the remote's PLAY_PAUSE key as alternating PLAY and PAUSE.

Files and modules:

- `wrappers.dfy` (`Wrappers`): `Option`. It stands for Java's nullable references.
- `directory.dfy` (`DeviceDirectory`): the pure lookups against the input registry.
  - `IsHdmiDeviceId` holds exactly on the range `DeviceIdHdmi1..DeviceIdHdmi4`.
  - `GetHdmiDeviceInfo` and `GetPortIdByDeviceId` are first-match searches over the
    registry's input list and hardware list. Each list is passed in as a sequence.
- `message_queue.dfy` (`MessageQueue`): the `Handler` class.
  - It holds a sequence of `(tag, due time, payload)` messages and a logical
    millisecond clock `now`.
  - It can post a message now, post one delayed, and cancel every message with a tag.
  - `Next` fires the earliest message, first-in first-out among messages due at the same time.
- `key_forwarder.dfy` (`KeyForwarder`): the PLAY_PAUSE translation. It writes out
  Java's 32-bit `int` counter and Java's truncating `%`.
- `cec_manager.dfy` (`HdmiCecManager`): the class `CecManager` with the fields of
  the Java class and one method per operation:
  - `OnSetMain`, `DeviceSelect`, `PortSelect`, `DeviceSelectInternalDelayed`,
    `RemovePreviousMessages`;
  - `HandleMessage`, and `DispatchNext`, the looper step that calls it;
  - `OnChange`, the settings observer;
  - `SendKeyEvent` and `GetCurrentInput`.

  Firing a select or key message does not call a CEC client. It appends the
  command the client would receive to the field `dispatched`.

`CecManager.Valid()` is the object invariant. Every public operation (`OnSetMain`,
`DispatchNext`, `OnChange`, `SendKeyEvent`, `Tick`) preserves it, and so do
`DeviceSelect`, `PortSelect` and `DeviceSelectInternalDelayed`. `RemovePreviousMessages`
and `HandleMessage` are steps inside those and do not keep it on their own:
`HandleMessage` runs a message that is still counted in the queue. The invariant says:

- the protection flag is up exactly when one protection-clear message is queued, and never more than one is;
- no device-select or port-select message is queued while there is no current selection. So the handler's reads of `mCurrentSelect` at lines 81 and 84 can never meet null;
- nothing is queued or selected without a CEC feature and a TV client;
- every key-event message carries its key;
- the key counter stays within the 32-bit range.

Eight scenario methods walk through these sequences:

- `LeaveInsideProtectionScenario`: select HDMI1 with logical address 4, then leave
  it inside the 1500 ms window. The leave is suppressed.
- `ProtectionExpiresScenario` and `LeaveAfterProtectionScenario`: the select and its
  protection clear both run, then the same leave comes 1600 ms after the select. An
  internal device-select is queued for 3100 ms and dispatched then.
- `StaleLeaveAndReenableScenario`: a leave event from an older session is ignored.
  Re-enabling CEC then promotes the last request made, here for a non-HDMI input.
- `StaleLeaveRoutesToTvScenario` and `StaleLeaveThenReenable`: HDMI1 is selected in
  session 2 and its device-select to address 4 is sent. A leave event from session 1
  is ignored. Re-enabling CEC while the TV is still tuned to HDMI1 then sends
  a device-select to address 0, the TV itself.
- `PortSelectThenReenableScenario` and `ReenableAfterPortSelect`: HDMI1 has no known
  logical address and is port-selected to port 2. Re-enabling CEC while the TV is tuned
  to HDMI1 then sends a device-select to address 0.

Behaviour of the code that the model keeps, as written:

- The settings observer (lines 417-441) checks `mCurrentSelect`: it must be on an HDMI
  device that is the live tuned device. But it then calls `deviceSelect()`, and
  `deviceSelect()` promotes `mSelectingDevice`, the last request made (line 231).
  The comment at line 435 says the select should follow the device LiveTv is tuned to.
- `onSetMain` overwrites `mSelectingDevice` (line 169) before it tests the device id. So the pending
  request differs from the current selection after every `OnSetMain` outcome except
  `DeviceSelected`, `PortSelected` and `InternalScheduled` (and `CecUnavailable`, which
  changes nothing):
  - `NotHdmiDevice`: a non-HDMI input (the test at line 171 fails);
  - `TvInputInfoMissing`: no `TvInputInfo` for an HDMI input (lines 174-177);
  - `StaleLeaveIgnored`: a leave event of an older session of the current device (lines 198-201);
  - `InternalSuppressed`: a leave inside the protection window, which leaves
    `INTERNAL_DEVICE` pending (lines 203, 242-246).
- In each of these four cases the pending record has logical address 0. The request
  constructor (lines 365-369) leaves the address at Java's default 0, and
  `INTERNAL_DEVICE` is address 0 (line 65). `OnSetMain`'s contract states this. If CEC
  is then re-enabled while the TV is tuned to the current HDMI source, `OnChange`
  makes that record current, and the queued device-select goes to address 0 while the
  TV shows the HDMI input. `StaleLeaveRoutesToTvScenario` shows this for a stale leave.
- The same re-route follows a plain `PortSelected`. There the pending record is the
  current one, but only its port was resolved, so its logical address is 0. `onChange`
  re-runs a device-select, not the port-select that the comment at lines 253-257 names
  for the case where no logical address is known. `PortSelectThenReenableScenario`
  shows it.
- The protection window is opened when the select is queued (line 237), not when it fires.
- The window suppresses every internal fallback, not only one for the same device.
- `GetCurrentInput` returns "" both before any selection and for the internal
  selection, whose input id is empty.
- A leave event before any selection makes the Java code dereference null
  (line 199). The model returns the outcome `CurrentSelectNull` instead. As in the
  code, `mSelectingDevice` has already been overwritten at that point and nothing else has changed.

## Model

| member | source | states |
|---|---|---|
| DeviceDirectory.IsHdmiDeviceId | tv/frameworks/core/java/com/droidlogic/app/tv/DroidLogicHdmiCecManager.java:320-323 | holds exactly for the four device ids of HDMI1 to HDMI4 |
| DeviceDirectory.FirstMatchingInput | tv/frameworks/core/java/com/droidlogic/app/tv/DroidLogicHdmiCecManager.java:285-292 | finds the index of the first input that has HDMI info and whose id or parent id equals the argument; None exactly when no input qualifies |
| DeviceDirectory.GetHdmiDeviceInfo | tv/frameworks/core/java/com/droidlogic/app/tv/DroidLogicHdmiCecManager.java:283-294 | returns the HDMI info of the first input (in list order) with non-null HDMI info whose id or parent id equals the argument; null exactly when there is none |
| DeviceDirectory.FirstMatchingHardware | tv/frameworks/core/java/com/droidlogic/app/tv/DroidLogicHdmiCecManager.java:308-313 | finds the index of the first hardware entry with the given device id; None exactly when no entry has it |
| DeviceDirectory.GetPortIdByDeviceId | tv/frameworks/core/java/com/droidlogic/app/tv/DroidLogicHdmiCecManager.java:302-314 | returns -1 for a null list and for a list with no matching device id (so also for an empty one); otherwise the HDMI port of the first entry whose device id matches |
| MessageQueue.Without | tv/frameworks/core/java/com/droidlogic/app/tv/DroidLogicHdmiCecManager.java:278-280 | after cancelling a tag, no message with that tag is left, every other message is kept, and the counts of the other tags are unchanged |
| MessageQueue.WithoutAppend | tv/frameworks/core/java/com/droidlogic/app/tv/DroidLogicHdmiCecManager.java:278-280 | cancelling a tag distributes over concatenation, so the kept messages keep their relative order |
| MessageQueue.WithoutSingleton | tv/frameworks/core/java/com/droidlogic/app/tv/DroidLogicHdmiCecManager.java:278-280 | a single message is cancelled exactly when it has the tag; with WithoutAppend, cancelling is an order-keeping filter that keeps each other message once |
| MessageQueue.EarliestIndex | tv/frameworks/core/java/com/droidlogic/app/tv/DroidLogicHdmiCecManager.java:76-79 | the message the looper runs next is due no later than any other and is the first queued among those due at that time |
| MessageQueue.Handler.SendMessage | tv/frameworks/core/java/com/droidlogic/app/tv/DroidLogicHdmiCecManager.java:235 | appends one message due at the current time; the clock does not move |
| MessageQueue.Handler.SendMessageDelayed | tv/frameworks/core/java/com/droidlogic/app/tv/DroidLogicHdmiCecManager.java:238 | appends one message due the given delay after the current time |
| MessageQueue.Handler.RemoveMessages | tv/frameworks/core/java/com/droidlogic/app/tv/DroidLogicHdmiCecManager.java:278 | the queue becomes the old queue without the messages of that tag |
| MessageQueue.Handler.Next | tv/frameworks/core/java/com/droidlogic/app/tv/DroidLogicHdmiCecManager.java:76-78 | takes the earliest message out of the queue, keeping the others in order, and moves the clock to its due time if that is later |
| HdmiCecManager.ResolveRoute | tv/frameworks/core/java/com/droidlogic/app/tv/DroidLogicHdmiCecManager.java:172-196 | with no TvInputInfo nothing is routed. The logical address comes from the TvInputInfo's HDMI info first, then from the input-list search. A port-select is chosen exactly when both fail, with the port from the hardware search; the two routes never both happen |
| HdmiCecManager.WithoutRouting | tv/frameworks/core/java/com/droidlogic/app/tv/DroidLogicHdmiCecManager.java:277-281 | after cancelling earlier routing, exactly the queued key-event messages are left |
| HdmiCecManager.WithoutRoutingKeepsKeyEvents | tv/frameworks/core/java/com/droidlogic/app/tv/DroidLogicHdmiCecManager.java:277-281 | the queue left after cancelling earlier routing is exactly the queued key events, each once and in their queued order |
| HdmiCecManager.AfterSelect | tv/frameworks/core/java/com/droidlogic/app/tv/DroidLogicHdmiCecManager.java:230-239 | the queue after a select is two longer than the routing-free old queue; it ends with the select due now and the protection clear due 1500 ms later |
| HdmiCecManager.AfterSelectShape | tv/frameworks/core/java/com/droidlogic/app/tv/DroidLogicHdmiCecManager.java:230-239 | after a select, the queue ends with exactly one select of the matching kind due now and exactly one protection clear due 1500 ms later. No other routing message remains, and before these two come the queued key events, each once and in their order |
| HdmiCecManager.NewSelectDeviceInfo | tv/frameworks/core/java/com/droidlogic/app/tv/DroidLogicHdmiCecManager.java:353-369 | a new request carries the input id, device id and session id it was made with; its logical address and port are 0, the same address as the internal device at line 65 |
| HdmiCecManager.CecManager.constructor | tv/frameworks/core/java/com/droidlogic/app/tv/DroidLogicHdmiCecManager.java:112-136 | starts with no current or pending selection, no protection, a zero counter and an empty queue; there is no TV client without the CEC feature |
| HdmiCecManager.CecManager.GetCurrentInput | tv/frameworks/core/java/com/droidlogic/app/tv/DroidLogicHdmiCecManager.java:209-215 | "" when there is no current selection; otherwise the current selection's input id, which is "" for the internal selection |
| HdmiCecManager.CecManager.RemovePreviousMessages | tv/frameworks/core/java/com/droidlogic/app/tv/DroidLogicHdmiCecManager.java:277-281 | the queue loses every device-select, port-select and protection message and nothing else |
| HdmiCecManager.CecManager.DeviceSelect | tv/frameworks/core/java/com/droidlogic/app/tv/DroidLogicHdmiCecManager.java:230-239 | the current selection becomes the pending one and the protection flag is set. The queue is the old one with routing cancelled, plus one immediate device-select and one protection clear at +1500. The invariant is kept |
| HdmiCecManager.CecManager.PortSelect | tv/frameworks/core/java/com/droidlogic/app/tv/DroidLogicHdmiCecManager.java:259-268 | as DeviceSelect, with one immediate port-select queued instead |
| HdmiCecManager.CecManager.DeviceSelectInternalDelayed | tv/frameworks/core/java/com/droidlogic/app/tv/DroidLogicHdmiCecManager.java:241-252 | while protected, nothing changes. Otherwise the current selection becomes the pending one and exactly one device-select due at +1500 is appended; no queued message is removed |
| HdmiCecManager.CecManager.OnSetMain | tv/frameworks/core/java/com/droidlogic/app/tv/DroidLogicHdmiCecManager.java:158-207 | Nothing happens without CEC or a TV client. Otherwise the pending selection is always overwritten, and a non-HDMI id queues nothing and keeps the current selection. For a main HDMI source the route is ResolveRoute's. A leave event for the current device with another session changes nothing else. Any other leave makes the internal selection pending: inside the protection window it changes nothing more; outside it, the internal selection becomes current and one device-select is queued at +1500. Every outcome that leaves a record pending without a resolved address leaves one with logical address 0 |
| HdmiCecManager.CecManager.HandleMessage | tv/frameworks/core/java/com/droidlogic/app/tv/DroidLogicHdmiCecManager.java:76-96 | a select sends the logical address or port of the current selection as it is when the message runs; a key message sends its key; the protection message clears the flag and changes nothing else |
| HdmiCecManager.CecManager.DispatchNext | tv/frameworks/core/java/com/droidlogic/app/tv/DroidLogicHdmiCecManager.java:78-95 | runs the earliest queued message, with the effects of HandleMessage, and keeps the invariant: while the flag is up exactly one protection clear is queued, and no select is queued before there is a current selection |
| HdmiCecManager.CecManager.OnChange | tv/frameworks/core/java/com/droidlogic/app/tv/DroidLogicHdmiCecManager.java:417-441 | re-runs DeviceSelect exactly when the changed setting is hdmi_control_enabled, it reads enabled (unset counts as enabled), and the current selection is on an HDMI device that is the live tuned device. The current selection then becomes the pending request. Otherwise nothing changes |
| HdmiCecManager.CecManager.SendKeyEvent | tv/frameworks/core/java/com/droidlogic/app/tv/DroidLogicHdmiCecManager.java:325-351 | returns false and changes nothing without CEC or a TV client. Otherwise it queues exactly one immediate key message with the translated key and the press flag, and returns true. The counter advances only on a PLAY_PAUSE release |
| KeyForwarder.JavaRem2 | tv/frameworks/core/java/com/droidlogic/app/tv/DroidLogicHdmiCecManager.java:338 | Java's remainder by 2 is 0 exactly for even values, 1 or 0 for non-negative values, and -1 or 0 for negative ones |
| KeyForwarder.ForwardedKeyCode | tv/frameworks/core/java/com/droidlogic/app/tv/DroidLogicHdmiCecManager.java:335-342 | keys other than PLAY_PAUSE are forwarded unchanged; PLAY_PAUSE always becomes PLAY or PAUSE: for a non-negative count, PLAY exactly when it is even; for a negative count, always PLAY (the last stated by WrappedCounterForwardsPlay) |
| KeyForwarder.NextKeyCount | tv/frameworks/core/java/com/droidlogic/app/tv/DroidLogicHdmiCecManager.java:343-345 | the counter stays a 32-bit int; it moves only on a PLAY_PAUSE release, by one, wrapping from the largest int to the smallest |
| KeyForwarder.Int32Increment | tv/frameworks/core/java/com/droidlogic/app/tv/DroidLogicHdmiCecManager.java:344 | the counter's increment stays within 32 bits and wraps from the largest int to the smallest |
| KeyForwarder.OtherKeysPassThrough | tv/frameworks/core/java/com/droidlogic/app/tv/DroidLogicHdmiCecManager.java:335-348 | every key other than PLAY_PAUSE is forwarded unchanged and leaves the counter alone; a press never advances the counter |
| KeyForwarder.PlayPauseAlternates | tv/frameworks/core/java/com/droidlogic/app/tv/DroidLogicHdmiCecManager.java:338-345 | for a non-negative counter, PLAY_PAUSE becomes PLAY at an even count and PAUSE at an odd one, read before the increment. A press and its release forward the same key, and after the release the next pair forwards the other key |
| KeyForwarder.WrappedCounterForwardsPlay | tv/frameworks/core/java/com/droidlogic/app/tv/DroidLogicHdmiCecManager.java:338-344 | once the counter has wrapped to a negative value, PLAY_PAUSE is always forwarded as PLAY, because Java's remainder is then never 1 |

## Left out

- The `getInstance` singleton and its locking (lines 105-110). The model is one explicitly constructed `CecManager`.
- The constructor's system-service lookups (lines 112-136). They become two booleans: whether the CEC feature exists, and whether a TV client was obtained.
- The audio-system client `mClient` that the constructor takes when there is no TV client. It is never used: `sendKeyEvent` refuses to queue anything without a TV client, so the key message handler always sends through the TV client.
- `registerSettingsObserver` (lines 217-225). `OnChange` may be called at any time. Without the CEC feature there is never a current selection, so it does nothing then.
- `setDeviceIdForCec` (lines 296-300), a call into the TV control service.
- `getInputSourceDeviceId` (lines 316-318). The live tuned device id is a parameter of `OnChange`.
- The logging-only `SelectCallback` (lines 98-103), `toString` (lines 400-409) and all logging.
- The real CEC client calls. They are recorded as commands in `dispatched`. Their completion codes are only logged in the source and are not modelled.
- Wall-clock time. The queue runs on a logical clock. `Tick` lets time pass, but never beyond a queued message's due time, which the looper would run first; `DispatchNext` moves the clock to the due time of the message it runs.
- The platform's `TvInputManager`. Its answers are parameters of `OnSetMain`: `getTvInputInfo` as an `Option`, and `getTvInputList` and `getHardwareList` as sequences (the hardware list as an `Option`, since it may be null).
- The device-id constants come from `DroidLogicTvUtils`, and `DroidLogicTvUtils` is not part of this model. The model uses 5 and 8 for `DEVICE_ID_HDMI1` and `DEVICE_ID_HDMI4`; the proofs only rely on the HDMI ids forming one range.
- Null input ids, and a null input list from `getTvInputList`. Strings and the input list are assumed non-null.
- The NullPointerException at line 199 is not raised as an exception. It is the outcome `CurrentSelectNull`, with the state the Java code leaves behind.
