# MOD-EVAC-MS hazard and evacuation core in Dafny

This project models the decision-making core of MOD-EVAC-MS, a hazard-detection and
evacuation-guidance system, and proves properties of that model. The system has three parts:
an ESP32 main controller, a Python backend, and two dataset scripts.

**ESP32 main controller** (`firmware/main_controller/src/main.cpp`):
- the four-zone LED table over a 60-LED strip, and the zone painters;
- the evacuation chase with its `uint8_t` phase;
- the brightness ramps of the LED task;
- the 512-byte serial line buffer;
- `parseCommand`, with its serial acknowledgements and the SIM800L AT sequences for calls and SMS;
- the telemetry frame.

The modules are `Alerts`, `LedStrip`, `AlertRenderer`, `SerialLink` and `CommandDispatch`.

**Python backend** (`backend/`):
- the thread-safe `StateManager` (module `SharedState`);
- the `ControlWorker` decision engine, with debounce, escalation, the hazard category, retrying calls and SMS fan-out (module `Control`);
- the `WorkerManager` (module `Workers`), covering:
  - its length-prefixed TCP framing;
  - registration, heartbeats, results and timeout cleanup;
  - the synchronous round-robin hand-off;
- the `SensorWorker` (module `SensorLink`), covering its newline-delimited reader and the telemetry-to-state mapping;
- the `VisionWorker` frame pipeline (module `Vision`), which offloads one frame in N+1 or falls back to local inference.

Shared helpers model Python `str(int)`, `int(str)` and `str.lower()` restricted to ASCII letters (module `Text`), and `json.dumps` with its default separators (module `PyJson`).

**Dataset scripts** (`AI/scripts/filter_classes.py` and `filter_classes_fast.py`), module `LabelFilter`:
- the per-line label rewrite: drop class 2, remap 3 to 2;
- the per-file and per-dataset passes;
- the `data.yaml` update.

Objects the source updates in place are classes, and their methods are proved against specification functions:
- the LED strip (an `array` of colours), the line buffer and the state manager;
- the control, worker-manager, sensor and vision workers;
- the label store.

Decisions that are pure are datatypes, functions and lemmas: command dispatch, framing, thresholds, categories and line fates.

Where the code and its comments or documentation disagree, the model follows the code:

- **Evacuation chase.** `phase` is a `uint8_t` (`main.cpp:374`) and each zone has 15 LEDs. When the phase wraps from 255 to 0, `255 % 15 == 0 % 15`, so the comet head stays put for one frame instead of advancing. `LedStrip.CometStallsAtPhaseWrap` states this; `LedStrip.CometAdvances` states the advance on every other frame.
- **Telemetry on a lock timeout.** The firmware serialises an empty `StaticJsonDocument` when the sensor mutex is not taken within 5 ms (`main.cpp:324-346`). That prints `null`, not the previous readings. In the backend `data.get` on `None` raises (`sensor_worker.py:93-97`); `SensorLink.LockTimeoutLineRaises` states this.
- **`json.dumps` separators.** The default separators are `", "` and `": "`, so the LED command reaches the controller as `{"cmd": "set_alert", "alert": 3}`. `SensorLink.SetAlertText` states this.
- **The fast script's idempotence comment.** `filter_classes_fast.py:8-9` says `process_file` is idempotent. It is not: a smoke line `3 …` becomes `2 …` on the first run and is deleted as flood on the second. `LabelFilter.PassTwiceDropsSmoke` exhibits this and `LabelFilter.PassIdempotentIff` states exactly when a second pass changes nothing. The YAML update of the fast script, in contrast, is idempotent (`LabelFilter.UpdateYamlFastIdempotent`).
- **The stale-alert timer.** The ten-minute auto-clear in `_control_loop` (`control_worker.py:311-315`) measures from `last_alert_change`. That timer starts at 0 (`control_worker.py:67`) and only an accepted `_trigger_alert` moves it (`control_worker.py:143`). An alert installed any other way, such as `set_evacuate_mode` or a `set_alert` on the state, is therefore cleared by the next 0.5 s pass whenever no `_trigger_alert` was accepted in the last ten minutes. `Control.UntriggeredEvacuateIsReset` states this.
- **The sensor read buffer.** It is a local of `_read_loop` in the source. It is modelled as a field of the worker, so that one call of `ReadChunk` models one pass of the loop body.

## Model

| member | source | states |
|---|---|---|
| Alerts.AlertLevel.Code | firmware/main_controller/src/main.cpp:54-60 | each alert level's code is its enum ordinal, within 0..4 |
| Alerts.LevelOf | firmware/main_controller/src/main.cpp:416-419 | the cast of an accepted alert number 0..4 yields the level with that code |
| Alerts.CodeAndNameIdentify | backend/state_manager.py:23-28 | two alert levels are equal iff their codes are equal, and iff their names are equal |
| LedStrip.ZoneLen | firmware/main_controller/src/main.cpp:381-383 | every zone spans at least one LED (`end - start + 1`) |
| LedStrip.ZoneTableIsPartition | firmware/main_controller/src/main.cpp:36-41 | the zone table starts at LED 0, each zone starts where the previous ends, and the last ends at LED 59 |
| LedStrip.ZoneOf | firmware/main_controller/src/main.cpp:36-41 | every LED lies in exactly one zone |
| LedStrip.CometHead | firmware/main_controller/src/main.cpp:386 | the comet head `phase % zoneLen` lies inside its zone |
| LedStrip.EvacuationComet | firmware/main_controller/src/main.cpp:387-391 | in a zone before the exit, an LED is lit iff it is the head or one of the two LEDs behind it within the zone |
| LedStrip.EvacuationExitAndBeyond | firmware/main_controller/src/main.cpp:392-397 | the exit zone is solid green and zones past it are dark |
| LedStrip.NextPhase | firmware/main_controller/src/main.cpp:401 | the `uint8_t` phase increment wraps 255 to 0 |
| LedStrip.CometAdvances | firmware/main_controller/src/main.cpp:386-401 | below 255, each frame moves the head one LED forward, cyclically within the zone |
| LedStrip.CometStallsAtPhaseWrap | firmware/main_controller/src/main.cpp:374-401 | at the 255-to-0 wrap the head stays at position 0 for a second frame |
| LedStrip.Strip.constructor | firmware/main_controller/src/main.cpp:65 | the strip starts dark, at phase 0, with nothing shown |
| LedStrip.Strip.Show | firmware/main_controller/src/main.cpp:400 | `FastLED.show()` appends the current frame to what was shown |
| LedStrip.Strip.Clear | firmware/main_controller/src/main.cpp:377 | every LED becomes black |
| LedStrip.Strip.SetZoneColor | firmware/main_controller/src/main.cpp:360-365 | a valid zone's LEDs take the colour and every other LED is unchanged; an invalid zone changes nothing |
| LedStrip.Strip.SetAllZonesColor | firmware/main_controller/src/main.cpp:367-371 | every LED takes the colour |
| LedStrip.Strip.RunEvacuationPattern | firmware/main_controller/src/main.cpp:373-402 | the strip shows the evacuation frame for the old phase, and the phase advances with `uint8_t` wrap |
| LedStrip.Strip.DrawZone | firmware/main_controller/src/main.cpp:380-397 | one zone of the chase is painted per the evacuation frame and the rest of the strip is untouched |
| AlertRenderer.TickRampNoWrap | firmware/main_controller/src/main.cpp:247-270 | from a safe ramp state a tick's `uint8_t` brightness equals the unbounded result (no wrap) and the state stays safe |
| AlertRenderer.RampNeverWraps | firmware/main_controller/src/main.cpp:230-270 | from the task's initial state, any sequence of alert ticks keeps the brightness arithmetic free of wrap-around |
| AlertRenderer.CallingRampClimbs | firmware/main_controller/src/main.cpp:249-251 | n calling ticks from the start give brightness 5n, still increasing until it reaches 250 |
| AlertRenderer.LedTask.constructor | firmware/main_controller/src/main.cpp:231-233 | the task starts at brightness 0, increasing |
| AlertRenderer.LedTask.Tick | firmware/main_controller/src/main.cpp:236-293 | one iteration per alert level: the ramp update, the frames shown (green, amber, blue, red then black, or the evacuation frame), the LED array left holding the last of them, and the phase unchanged except under evacuation |
| AlertRenderer.EvacuateTowardZoneThree | firmware/main_controller/src/main.cpp:288-290 | under evacuation zone 3 is solid green and zones 0-2 carry the chase |
| SerialLink.CString | firmware/main_controller/src/main.cpp:313 | the text handed to `parseCommand` is the buffer up to its first NUL, and the whole line when it has none |
| SerialLink.FeedAllWellFormed | firmware/main_controller/src/main.cpp:309-320 | every line assembled holds 1..511 characters and no CR or LF, and the pending text stays within 511 |
| SerialLink.FeedAllAppends | firmware/main_controller/src/main.cpp:317-318 | bytes without a terminator are appended while they fit |
| SerialLink.FeedAllDropsOverflow | firmware/main_controller/src/main.cpp:317 | once 511 bytes are pending, further non-terminator bytes are dropped |
| SerialLink.FeedAllSplit | firmware/main_controller/src/main.cpp:309-320 | assembling lines is independent of how the input is split into reads |
| SerialLink.FeedAllKeepsPrefix | firmware/main_controller/src/main.cpp:302-318 | an over-long line is truncated to its first 511 bytes |
| SerialLink.WholeLineArrives | firmware/main_controller/src/main.cpp:311-316 | a line ended by LF or CRLF is delivered once, truncated to 511 bytes, and the CR of CRLF yields no empty command |
| SerialLink.TerminatorEndsLine | firmware/main_controller/src/main.cpp:311-316 | a terminator delivers the pending text and empties the buffer |
| SerialLink.LineBuffer.constructor | firmware/main_controller/src/main.cpp:302-303 | the 512-byte buffer starts empty |
| SerialLink.LineBuffer.Receive | firmware/main_controller/src/main.cpp:310-319 | one byte updates the array buffer and index exactly as the line-assembly function says |
| SerialLink.LineBuffer.Poll | firmware/main_controller/src/main.cpp:309-320 | draining the serial input yields exactly the lines and pending text of the line-assembly function |
| CommandDispatch.ToByte | firmware/main_controller/src/main.cpp:431 | an `int` colour component becomes a byte congruent to it modulo 256 and equal to it when in range |
| CommandDispatch.Dispatch | firmware/main_controller/src/main.cpp:404-457 | parse failures print the error line; a missing `cmd` does nothing; the alert changes iff `set_alert` carries 0..4; a zone is painted iff `set_zone` names a zone 0..3; GSM writes happen iff `gsm_call` has a number or `gsm_sms` has both number and message |
| CommandDispatch.SetAlertInstalls | firmware/main_controller/src/main.cpp:416-423 | an accepted `set_alert` installs that level and prints exactly one acknowledgement |
| CommandDispatch.AlertAckRoundTrip | firmware/main_controller/src/main.cpp:420-422 | the acknowledgement line carries the alert number, recoverable by parsing the text between the prefix and `}` |
| CommandDispatch.AlertAckInjective | firmware/main_controller/src/main.cpp:420-422 | distinct alert numbers give distinct acknowledgement lines |
| CommandDispatch.DialNumberRecoverable | firmware/main_controller/src/main.cpp:470 | the dial command is `ATD`, the number, then `;` |
| CommandDispatch.SmsBodyFollowsRecipient | firmware/main_controller/src/main.cpp:480-495 | the SMS sequence names the recipient, then writes the message, then Ctrl+Z |
| CommandDispatch.ZoneColorWraps | firmware/main_controller/src/main.cpp:425-431 | for every `set_zone` naming a valid zone, that zone is painted with each component congruent to its argument modulo 256, equal to it when it lies in 0..255, and 0 when it is missing |
| CommandDispatch.Controller.constructor | firmware/main_controller/src/main.cpp:69 | the controller starts in the safe state with no output |
| CommandDispatch.Controller.GsmCall | firmware/main_controller/src/main.cpp:468-478 | dial, then hang up on the modem; dialing and hang-up events on the serial link |
| CommandDispatch.Controller.GsmSendSms | firmware/main_controller/src/main.cpp:480-499 | text mode, recipient, message, Ctrl+Z on the modem; one sent event on the serial link |
| CommandDispatch.Controller.ParseCommand | firmware/main_controller/src/main.cpp:404-457 | the alert, serial output, modem output and LED frame change exactly as the dispatch function says, and the strip is shown only when a zone was painted |
| CommandDispatch.TelemetryFrame | firmware/main_controller/src/main.cpp:323-347 | a frame is filled iff the sensor lock was taken, and then it carries the readings and the current alert's code |
| Text.IntToString | AI/scripts/filter_classes.py:36 | `str(n)` is non-empty and starts with `-` iff n is negative |
| Text.NatToStringValue | firmware/main_controller/src/main.cpp:421 | the decimal digits printed for a natural number denote that number |
| Text.ParseInt | AI/scripts/filter_classes.py:27 | `int(tok)` fails on an empty token and reads a plain digit string as its decimal value |
| Text.ParseIntToString | AI/scripts/filter_classes.py:27-36 | `int(str(n)) == n` for every integer |
| Text.IntToStringInjective | backend/state_manager.py:308 | distinct integers print differently |
| Text.Lower | backend/control_worker.py:185 | `lower()` on ASCII: the length is kept, `A`-`Z` become `a`-`z` and every other character is unchanged |
| Text.LowerIdempotent | backend/control_worker.py:185 | lowering twice is lowering once |
| PyJson.EscapeString | backend/sensor_worker.py:80 | `json.dumps` string escaping yields printable ASCII at least as long as the input |
| PyJson.EscapePlainUnchanged | backend/sensor_worker.py:80 | a string of printable ASCII without quote or backslash is left as is |
| PyJson.Dumps | backend/sensor_worker.py:80 | a serialised object is printable ASCII enclosed in braces |
| SharedState.PyTail | backend/state_manager.py:219 | `s[-n:]` is a suffix: the last n items for positive n, everything for 0, all but the first -n for negative n |
| SharedState.Trim | backend/state_manager.py:195-196 | trimming keeps the newest `cap` items, and everything when `cap` is 0 |
| SharedState.AppendTrimmed | backend/state_manager.py:193-196 | appending to a full list drops the oldest item, otherwise nothing; the new item is last |
| SharedState.Enqueue | backend/state_manager.py:121-124 | `put_nowait` appends when the queue has room and drops the item when full |
| Wrappers.DictGet | backend/state_manager.py:147-153 | `dict.get` returns the value when the key exists, else the default; it gives each sensor axis its new or old value here and reads the telemetry fields in `sensor_worker.py:97-104` |
| SharedState.ApplySensorUpdate | backend/state_manager.py:138-154 | fire and raining change only when given; axes change per key; the timestamp is always refreshed |
| SharedState.EmptyUpdateRefreshesTimestamp | backend/state_manager.py:141-154 | an update with no arguments changes only the timestamp |
| SharedState.SensorUpdateIdempotent | backend/state_manager.py:138-154 | applying the same update twice equals applying it once at the later time |
| SharedState.RecordChange | backend/state_manager.py:265-278 | history grows only on a real change; the new entry is last and the older ones are the newest survivors |
| SharedState.WithoutNumber | backend/state_manager.py:330 | the filter removes exactly the contacts with that number and keeps the rest |
| SharedState.WithoutNumberAppend | backend/state_manager.py:329-330 | filtering distributes over concatenation |
| SharedState.WithoutNumberIdempotent | backend/state_manager.py:326-331 | deleting a number twice is deleting it once |
| SharedState.IntCodeMatches | backend/state_manager.py:306-308 | an integer code matches iff it equals the drawn code |
| SharedState.StateManager.constructor | backend/state_manager.py:68-99 | default sensor data, empty histories, contacts and queues, the SAFE alert, and a six-digit access code |
| SharedState.StateManager.Emit | backend/state_manager.py:116-124 | an event is queued unless the 1000-entry queue is full; the subscriber loop that follows is the `UnderEmit` handlers of `Control` |
| SharedState.StateManager.UpdateSensor | backend/state_manager.py:138-156 | the sensor record becomes the applied update, and a `sensor_update` event carries it |
| SharedState.StateManager.AddDetection | backend/state_manager.py:181-206 | the detection is appended, the list is trimmed to the cap, and a `detection` event is queued |
| SharedState.StateManager.GetDetections | backend/state_manager.py:208-220 | returns the last `limit` detections with Python slice semantics |
| SharedState.StateManager.SetAlert | backend/state_manager.py:263-287 | the alert is set, history records a real change, and an `alert_change` event is queued |
| SharedState.StateManager.GetAlertHistory | backend/state_manager.py:297-300 | returns the last `limit` history entries with Python slice semantics |
| SharedState.StateManager.VerifyAccessCode | backend/state_manager.py:306-308 | accepts iff `str(code)` equals the access code; an integer argument is accepted iff it equals the drawn number |
| SharedState.StateManager.AddGsmContact | backend/state_manager.py:314-324 | the contact is appended to the list named by the mode; other modes change nothing and emit nothing |
| SharedState.StateManager.DeleteGsmContact | backend/state_manager.py:326-331 | both lists lose exactly the contacts with that number |
| SharedState.StateManager.TriggerManualAction | backend/state_manager.py:337-348 | the action joins the 10-entry manual queue unless full, and an event is queued |
| Control.Category | backend/control_worker.py:183-192 | the category is fire, smoke, rain, debris or general, each iff the lowered reason mentions its words in the order the code tests them |
| Control.CategoryIgnoresCase | backend/control_worker.py:185 | the category of a reason does not depend on letter case |
| Control.FireAfterPrefix | backend/control_worker.py:111-157 | a `Detected: ` reason naming a fire or explosion hazard is dispatched to the fire category |
| Control.DispatchList | backend/control_worker.py:211 | exactly the contacts whose category is general or the hazard's are kept, in order |
| Control.DispatchListAppend | backend/control_worker.py:265 | the dispatch filter distributes over concatenation |
| Control.SmsText | backend/control_worker.py:270 | a contact's own message wins over the general one when non-empty |
| Control.SmsCommands | backend/control_worker.py:267-273 | one SMS command per dispatched contact |
| Control.SmsCommandsPointwise | backend/control_worker.py:267-273 | the i-th SMS command goes to the i-th contact with that contact's text |
| Control.Attempts | backend/control_worker.py:223-245 | calling stops at the first successful send or after five failures, and every attempt before the last failed |
| Control.AttemptsStopAtSuccess | backend/control_worker.py:223-247 | at least one attempt is made, and the contact counts as answered iff the last attempt succeeded |
| Control.CallCommandsBounds | backend/control_worker.py:218-245 | each dispatched contact receives between one and five call commands |
| Control.NoCallContactsNoSms | backend/control_worker.py:203-216 | with no call contact for the category nothing is sent, not even the SOS SMS |
| Control.DetectionTarget | backend/control_worker.py:99-114 | low confidence is ignored; critical hazards escalate to DANGER and warning hazards to CALLING, and only upward |
| Control.RainTarget | backend/control_worker.py:123-129 | raining at 70 or above escalates to DANGER, at 40 to 70 to CALLING, and only upward |
| Control.TiltTarget | backend/control_worker.py:131-135 | a tilt sum above 30 escalates a SAFE system to CALLING |
| Control.AcceptedChangesSpaced | backend/control_worker.py:137-143 | accepted alert changes are at least two seconds apart |
| Control.ControlWorker.constructor | backend/control_worker.py:39-81 | GSM enabled, idle, with no debounce history and nothing sent |
| Control.ControlWorker.SendLedCommand | backend/control_worker.py:165-181 | the `set_alert` command is sent iff a sensor link exists |
| Control.ControlWorker.TriggerAlert | backend/control_worker.py:137-163 | inside the debounce window nothing changes; otherwise the alert, history, both events and the LED command follow, and DANGER or above starts an emergency for the reason's category; this is the intended behaviour, see "## Findings" |
| Control.ControlWorker.HandleDetection | backend/control_worker.py:99-114 | the alert never decreases; when the detection target exists and the debounce accepts, the full accepted `_trigger_alert` follows with reason `Detected: ` or `Warning: ` and the class (level, timer, history entry, both events, LED command, emergency for DANGER); otherwise nothing changes; this is the intended behaviour, see "## Findings" |
| Control.ControlWorker.HandleSensor | backend/control_worker.py:116-135 | the alert never decreases; when a rain or tilt target exists and the debounce accepts, exactly one accepted `_trigger_alert` follows, the rain rule's when it fires and the tilt rule's otherwise, with its reason text, history entry, events, LED command, and an emergency for critical rain; otherwise nothing changes; this is the intended behaviour, see "## Findings" |
| Control.ControlWorker.CallWithRetries | backend/control_worker.py:218-248 | the sent call commands are as many as the attempts, and the result is whether the contact was reached |
| Control.ControlWorker.SendGsmMessage | backend/control_worker.py:254-275 | with GSM and a link, one SMS per dispatched contact and the status returns to idle; otherwise nothing |
| Control.ControlWorker.TriggerGsmEmergency | backend/control_worker.py:194-252 | with GSM and a link, exactly the emergency command sequence; otherwise nothing |
| Control.ControlWorker.CallThenMessage | backend/control_worker.py:218-252 | all calls first, then the `SOS: ` SMS fan-out, then idle |
| Control.ControlWorker.CallAll | backend/control_worker.py:218-248 | the calls of every dispatched contact, in order |
| Control.ControlWorker.SetSafeMode | backend/control_worker.py:277-281 | the alert becomes SAFE with reason `Manual reset`: its history entry, its `alert_change` event and the LED command follow, and the change timer is not touched |
| Control.ControlWorker.StaleAlertCheck | backend/control_worker.py:311-315 | a non-safe alert is reset to SAFE, exactly as by `set_safe_mode`, when more than 600 s have passed since the last accepted `_trigger_alert` (not since the alert was set); otherwise nothing changes |
| Control.ControlWorker.TriggerAlertUnderEmit | backend/control_worker.py:137-146 | as a subscriber callback, an accepted `_trigger_alert` installs the level, its history entry and the `alert_change` event, then blocks for good on the subscriber lock with no LED command, `hazard_detected` or emergency; inside the debounce window nothing changes |
| Control.ControlWorker.HandleDetectionUnderEmit | backend/control_worker.py:99-114 | it blocks iff the detection target exists and the debounce accepts, leaving the blocked state with the `Detected: ` or `Warning: ` reason; otherwise nothing changes |
| Control.ControlWorker.HandleSensorUnderEmit | backend/control_worker.py:116-135 | it blocks iff a rain or tilt target exists and the debounce accepts, leaving the blocked state of the rain rule when it fires and of the tilt rule otherwise; otherwise nothing changes |
| Control.SensorEscalationBlocks | backend/state_manager.py:126-132 | a 75 % reading on a SAFE system ends at DANGER with no LED command sent and no emergency started |
| Control.UntriggeredEvacuateIsReset | backend/control_worker.py:67-68 | before any accepted `_trigger_alert` the timer is 0, so an EVACUATE installed directly is reset to SAFE by the first check after 600 s of uptime |
| Workers.Unpack | backend/worker_manager.py:102 | a 4-byte big-endian header denotes a value below 2^32 |
| Workers.Pack | backend/worker_manager.py:137 | the header is four bytes |
| Workers.UnpackPack | backend/worker_manager.py:137 | unpacking a packed length gives the length back |
| Workers.PackUnpack | backend/worker_manager.py:102 | packing an unpacked header gives the header back |
| Workers.Encode | backend/worker_manager.py:244 | framing succeeds iff the payload length fits in 32 bits, and the frame is the header followed by the payload |
| Workers.ReadFrame | backend/worker_manager.py:100-110 | a message read is a prefix of the stream: header, a non-empty payload no longer than announced, then the rest |
| Workers.FrameRoundTrip | backend/worker_manager.py:100-110 | reading a framed non-empty payload returns it and leaves the following bytes |
| Workers.EmptyFrameCloses | backend/worker_manager.py:104-110 | an empty payload ends the connection loop |
| Workers.Connection.Receive | backend/worker_manager.py:100-110 | receiving in bursts of any size yields the same frame as the framing function |
| Workers.AsciiBytes | backend/worker_manager.py:243 | `.encode()` of ASCII text is one byte per character with the same code |
| Workers.WireRoundTrip | backend/worker_manager.py:243-244 | a JSON message sent on the wire is read back whole |
| Workers.EligibleIds | backend/worker_manager.py:218-221 | a worker is eligible iff registered and of the required or the general specialty |
| Workers.NextIndex | backend/worker_manager.py:227 | the next round-robin index is within the eligible list |
| Workers.RoundRobinVisitsAll | backend/worker_manager.py:227-228 | consecutive calls over a fixed eligible list pick distinct workers until all have been picked |
| Workers.Recorded | backend/worker_manager.py:154-161 | an empty detection list changes neither the detections nor the events |
| Workers.AsDetections | backend/worker_manager.py:155-161 | each reported detection becomes one stored detection with the frame id and time |
| Workers.RecordedKeepsAll | backend/worker_manager.py:154-161 | below the cap, recording appends every reported detection in order |
| Workers.WorkerManager.constructor | backend/worker_manager.py:85-91 | no workers, no pending tasks, index 0 |
| Workers.WorkerManager.Register | backend/worker_manager.py:116-137 | the worker's entry is set with the defaults `Generalist` and `sub-worker`, and an acknowledgement is queued on its connection |
| Workers.WorkerManager.Put | backend/worker_manager.py:122-131 | the registry maps the id to the entry and the order lists each id once |
| Workers.WorkerManager.Heartbeat | backend/worker_manager.py:139-142 | a registered session refreshes its last-seen time and stats; others change nothing |
| Workers.WorkerManager.InferenceResult | backend/worker_manager.py:144-162 | a pending task for the frame receives the detections and is signalled, and every detection is recorded in state |
| Workers.WorkerManager.RecordAll | backend/worker_manager.py:154-161 | the state's detections and events become the recorded log |
| Workers.WorkerManager.Disconnect | backend/worker_manager.py:166-171 | the session's worker is removed from the registry and the order |
| Workers.WorkerManager.Remove | backend/worker_manager.py:199-204 | one worker leaves the registry and the order |
| Workers.WorkerManager.Cleanup | backend/worker_manager.py:190-206 | exactly the workers silent for more than 15 s are removed, the rest keep their entries and their order |
| Workers.WorkerManager.ExpiredIds | backend/worker_manager.py:194-197 | the collected ids are exactly the timed-out workers |
| Workers.WorkerManager.EligibleWorkers | backend/worker_manager.py:217-221 | the loop collects exactly the eligible workers in registry order |
| Workers.WorkerManager.DistributeTaskSync | backend/worker_manager.py:208-262 | with no eligible worker nothing changes and the result is None; otherwise the index advances round-robin, the task goes to the chosen worker's connection unless the send fails, the pending entry is cleaned up, and the result is what arrived |
| Workers.WorkerManager.HandOff | backend/worker_manager.py:231-262 | the send, the wait and the cleanup of one pending task |
| Workers.FilterEligible | backend/worker_manager.py:218-221 | the filter loop's result is the eligible list |
| Workers.Without | backend/worker_manager.py:170 | deleting an id removes exactly that id |
| Workers.Fresh | backend/worker_manager.py:195-204 | the surviving ids are exactly those not timed out |
| Workers.KeepExpired | backend/worker_manager.py:194-204 | deleting the collected ids one by one leaves the surviving order |
| SensorLink.FirstNewline | backend/sensor_worker.py:144 | `split('\n', 1)` cuts at the first newline |
| SensorLink.SplitLinesNewlineFree | backend/sensor_worker.py:143-144 | neither the lines taken nor the remaining buffer hold a newline |
| SensorLink.SplitThenJoin | backend/sensor_worker.py:140-145 | the lines taken, each with its newline, followed by the remaining buffer rebuild the received text |
| SensorLink.JoinThenSplit | backend/sensor_worker.py:143-145 | newline-free lines joined with newlines split back into the same lines |
| SensorLink.SplitAfterLines | backend/sensor_worker.py:140-145 | complete lines in front of a text are taken first, then that text's own lines |
| SensorLink.Or | backend/sensor_worker.py:101-102 | `a or b` is a when truthy, else b |
| SensorLink.NumberArg | backend/sensor_worker.py:101 | a number is passed as raining, None means no update |
| SensorLink.FireArg | backend/sensor_worker.py:100 | a boolean is passed as fire, None means no update |
| SensorLink.DictArg | backend/sensor_worker.py:102-103 | a dictionary is passed as axes; a falsy value means no axis update |
| SensorLink.Effect | backend/sensor_worker.py:91-121 | non-JSON lines are ignored, non-object JSON raises, and a telemetry object updates the sensor with `raining or water` and `earthquake or gyro` |
| SensorLink.AfterLine | backend/sensor_worker.py:91-104 | only a telemetry update changes the shared sensor state and events |
| SensorLink.AfterLines | backend/sensor_worker.py:143-145 | processing no lines changes nothing |
| SensorLink.TelemetryUpdatesSensor | backend/sensor_worker.py:97-104 | a firmware telemetry frame sets raining from water, the earthquake axes from gyro, the accel axes, fire false, and the time |
| SensorLink.LockTimeoutLineRaises | backend/sensor_worker.py:93-97 | the `null` frame printed after a lock timeout raises in `_process_line` |
| SensorLink.CommandText | backend/sensor_worker.py:80 | a command is printable text ended by a newline |
| SensorLink.SetAlertText | backend/sensor_worker.py:87-89 | the LED command is `{"cmd": "set_alert", "alert": n}` with the default separators |
| SensorLink.SetAlertArrivesWhole | backend/sensor_worker.py:87-89 | the firmware's line buffer receives the LED command as exactly one line |
| SensorLink.SensorWorker.constructor | backend/sensor_worker.py:24-34 | closed port, empty buffer, nothing written |
| SensorLink.SensorWorker.Reconnect | backend/sensor_worker.py:130-136 | a successful reconnect opens the port and clears the buffer; a failed one changes nothing |
| SensorLink.SensorWorker.Disconnect | backend/sensor_worker.py:68-73 | the port is closed |
| SensorLink.SensorWorker.SendCommand | backend/sensor_worker.py:75-85 | the command is written iff the port is open and the write succeeds, and the result says so |
| SensorLink.SensorWorker.SetAlert | backend/sensor_worker.py:87-89 | writes the `set_alert` command for the level |
| SensorLink.SensorWorker.PingIfDue | backend/sensor_worker.py:147-150 | after more than 5 s a ping is sent and the ping time reset; otherwise nothing |
| SensorLink.SensorWorker.ProcessLine | backend/sensor_worker.py:91-121 | the shared state changes as the line's effect says, and the call raises iff the effect is a raise |
| SensorLink.SensorWorker.ReadChunk | backend/sensor_worker.py:138-145 | the lines processed are exactly the complete lines of buffer plus chunk, in order, and the buffer keeps the unterminated rest; a raising line stops the loop with the remaining text still buffered |
| Vision.ClassName | backend/vision_worker.py:152 | an id names one of the eight classes iff it is below 8, and `Hazard` otherwise |
| Vision.NoWorkersAllLocal | backend/vision_worker.py:122 | with no workers every frame runs locally |
| Vision.NoneLocalBelow | backend/vision_worker.py:119-122 | with n workers, the n frames after a local one are all offloaded |
| Vision.OneLocalPerWindow | backend/vision_worker.py:119-122 | with n workers, every window of n+1 consecutive frames runs exactly one locally |
| Vision.Delegated | backend/vision_worker.py:122-136 | remote results are used only when offloading and the send succeeded, and then they are what arrived |
| Vision.Labelled | backend/vision_worker.py:149-158 | a local box becomes a detection with its class name, confidence and corners |
| Vision.AllLabelled | backend/vision_worker.py:147-158 | one detection per box, in order |
| Vision.Marked | backend/vision_worker.py:163-176 | one drawn mark per detection, in order, in the given colour |
| Vision.SomeEligible | backend/worker_manager.py:214-224 | with at least one worker, a task without a required specialty finds an eligible worker |
| Vision.EligibleAll | backend/worker_manager.py:218-221 | without a required specialty every registered worker is eligible |
| Vision.VisionWorker.constructor | backend/vision_worker.py:43-51 | counters start at 0 |
| Vision.VisionWorker.ProcessFrame | backend/vision_worker.py:110-178 | the frame counter advances; the worker manager changes only when offloading; remote results are drawn in the remote colour with no local inference, otherwise the local boxes are recorded, counted and drawn in red |
| Vision.VisionWorker.Delegate | backend/vision_worker.py:124-132 | the hand-off to the worker manager's round robin |
| Vision.VisionWorker.Finish | backend/vision_worker.py:134-178 | the remote or local branch and the drawing |
| Vision.VisionWorker.RunLocal | backend/vision_worker.py:141-161 | each local box is labelled and recorded in state, in order |
| Vision.VisionWorker.Draw | backend/vision_worker.py:163-176 | each detection is drawn in the given colour, in order |
| LabelFilter.WordLength | AI/scripts/filter_classes.py:23 | a token runs up to the first whitespace character |
| LabelFilter.Words | AI/scripts/filter_classes.py:23 | `split()` yields non-empty tokens without whitespace |
| LabelFilter.SplitJoin | AI/scripts/filter_classes.py:23-39 | splitting `" ".join(parts) + "\n"` gives the parts back |
| LabelFilter.LineFate | AI/scripts/filter_classes.py:22-39 | a line is skipped iff empty or its first token is no integer, removed iff the id is the removed one, and otherwise kept with a newline, remapped iff the id is in the map |
| LabelFilter.KeptLineTokens | AI/scripts/filter_classes.py:35-39 | a kept line has the same tokens with the first replaced by the remapped id, which reads back as that id |
| LabelFilter.IntToStringIsWord | AI/scripts/filter_classes.py:36 | a remapped id prints as a single token |
| LabelFilter.Rewritten | AI/scripts/filter_classes.py:20-39 | the rewrite never adds lines |
| LabelFilter.RewrittenAppend | AI/scripts/filter_classes.py:22-39 | the rewrite of a file is the rewrites of its parts, concatenated |
| LabelFilter.UntouchedKeepsTokens | AI/scripts/filter_classes.py:22-43 | in a file left unwritten, every line is skipped or kept with its own tokens |
| LabelFilter.RewriteLines | AI/scripts/filter_classes.py:20-39 | the loop builds exactly the rewritten lines, and reports a modification iff some line was removed or remapped |
| LabelFilter.RewriteLine | AI/scripts/filter_classes.py:23-39 | one line's output and whether it touched the file |
| LabelFilter.Pass | AI/scripts/filter_classes_fast.py:14-36 | the fast rewrite never adds lines |
| LabelFilter.SecondPassOnLine | AI/scripts/filter_classes_fast.py:19-36 | a second pass deletes the lines the first pass remapped and keeps the others |
| LabelFilter.PassTwice | AI/scripts/filter_classes_fast.py:7-36 | a second pass loses exactly one line per remapped smoke line |
| LabelFilter.PassIdempotentIff | AI/scripts/filter_classes_fast.py:8-36 | a second pass changes nothing iff the first remapped no line |
| LabelFilter.SmokeLineFate | AI/scripts/filter_classes_fast.py:32-36 | a smoke line `3` becomes `2` |
| LabelFilter.FloodLineFate | AI/scripts/filter_classes_fast.py:28-30 | a flood line `2` is removed |
| LabelFilter.PassTwiceDropsSmoke | AI/scripts/filter_classes_fast.py:8-36 | the file `3` becomes `2` after one run and empty after two |
| LabelFilter.AfterLabels | AI/scripts/filter_classes.py:16-43 | processing a dataset keeps the set of files |
| LabelFilter.AfterFast | AI/scripts/filter_classes_fast.py:57-62 | processing a dataset keeps the set of files |
| LabelFilter.AfterLabelsPointwise | AI/scripts/filter_classes.py:16-43 | each listed file is rewritten iff it was touched, every other file is unchanged |
| LabelFilter.AfterFastPointwise | AI/scripts/filter_classes_fast.py:57-62 | each listed file is rewritten iff touched and writable, every other file is unchanged |
| LabelFilter.RewritesCounts | AI/scripts/filter_classes_fast.py:54-62 | the changed count is the number of files actually rewritten |
| LabelFilter.Accumulate | AI/scripts/filter_classes_fast.py:61-62 | the count is the sum of the per-file results, between 0 and the file count |
| LabelFilter.Completed | AI/scripts/filter_classes.py:16-43 | the number of files finished before the first raise, where the file at that index raises given the earlier rewrites; every file is finished when nothing raises |
| LabelFilter.LabelsStep | AI/scripts/filter_classes.py:16-43 | one more file either raises, leaving the count where it was, or is rewritten when touched and counted |
| LabelFilter.CompletedStops | AI/scripts/filter_classes.py:16-43 | after a raise no later file is processed, however many paths follow |
| LabelFilter.LabelStore.ProcessLabels | AI/scripts/filter_classes.py:5-43 | it raises iff some file cannot be read, or must be rewritten and cannot be written; the files become the dataset rewrite of the paths before that one, all paths when none raises |
| LabelFilter.LabelStore.ProcessFile | AI/scripts/filter_classes_fast.py:7-44 | returns 1 iff the file was touched and could be written, and then it holds the rewrite; otherwise 0 and nothing changes |
| LabelFilter.LabelStore.ProcessDataset | AI/scripts/filter_classes_fast.py:46-67 | the files become the fast dataset rewrite and the count is the number of rewrites |
| LabelFilter.UpdateYaml | AI/scripts/filter_classes.py:45-71 | a missing file writes nothing; an empty document raises; a dict of names becomes the three classes; a list longer than 3 loses index 2; other keys are kept |
| LabelFilter.UpdateYamlFast | AI/scripts/filter_classes_fast.py:69-80 | names always become the three classes and other keys are kept |
| LabelFilter.UpdateYamlFastIdempotent | AI/scripts/filter_classes_fast.py:69-80 | running the fast YAML update twice equals running it once |
| LabelFilter.UpdateYamlListRunsTwice | AI/scripts/filter_classes.py:62-66 | a list of five or more names loses two over two runs |
| LabelFilter.FourClassListMatchesDict | AI/scripts/filter_classes.py:55-66 | on the original four classes the list branch gives the same three names as the dict branch |

## Findings

| source | as written | input that shows it | evidently intended | confidence | as-written member | corrected member |
|---|---|---|---|---|---|---|
| backend/state_manager.py:96, 126-132; backend/control_worker.py:81, 137-163 | `_emit` calls the control worker's handlers while holding `_subscriber_lock`, a non-reentrant `threading.Lock`. An accepted `_trigger_alert` calls `set_alert`, whose own `_emit` waits for that lock on the same thread and never returns. The level, its history entry and `alert_change` are in place; the LED command, `hazard_detected` and the GSM emergency never happen, and every later `_emit` waits too. | `update_sensor(raining=75.0)` on a SAFE system more than 2 s after start | the handler runs to completion: LED command, `hazard_detected`, and a GSM emergency for DANGER | high (reasoned from the lock type; not executed) | Control.SensorEscalationBlocks | Control.ControlWorker.HandleSensor |

The rest of the model uses the completing handlers (`TriggerAlert`, `HandleDetection`, `HandleSensor`), as if the subscriber loop ran outside the lock or the lock were an `RLock`. The blocking variants `TriggerAlertUnderEmit`, `HandleDetectionUnderEmit` and `HandleSensorUnderEmit` state what the code does on the same inputs.

## Left out

- FreeRTOS scheduling, task priorities, delays and tick timing: each model method is one iteration or one call, and times are parameters.
- Hardware reads: the ADC, the MPU6050 and the float conversion of water percentage. Readings are `real` parameters.
- `FastLED.setBrightness` and the physical output: the strip is an array of colours plus a log of shown frames, and the brightness is a ramp state.
- The boot animation and the setup banner in `setup()`.
- ArduinoJson deserialisation and Python `json.loads`: decoded documents are parameters (`CommandDispatch.Doc`, `SensorLink.Decoded`, `Workers.WorkerMsg`).
- The ping line's `millis()` text and the float formatting of telemetry numbers.
- `update_device`, `get_devices`, `get_full_state`, `get_alert`, `subscribe`, `unsubscribe` and SQLite logging in the state manager: they store, copy or log and decide nothing. Device updates are not part of the model. The subscriber loop of `_emit` is not left out: its one subscriber is the control worker, modelled in `Control` (see "## Findings").
- Text.Lower: only ASCII `A`-`Z` are lowered. Python's `str.lower()` also lowers other letters, and some change length (`'İ'.lower()` has two characters). So a reason spelled with the Kelvin sign, `SMO\u212AE`, falls into the smoke category in the source but into `general` in `Control.Category`.
- Thread concurrency and locks: every method runs atomically. The one place where a lock changes an outcome on a single thread, the subscriber lock, is the finding above. The result a worker sends during `distribute_task_sync`'s wait is a parameter (`arrived`).
- `_check_internet_connectivity`, `_handle_manual_trigger`, `set_evacuate_mode`, `start`, `stop` and the voice engine: I/O or thread plumbing around the modelled operations.
- Short `recv` reads of the 4-byte header: `struct.unpack` raising is the `ShortHeader` outcome, not modelled byte by byte.
- Workers.Encode: a payload of 4 GiB or more makes `struct.pack` raise. The model returns `None` there and does not model the exception's propagation.
- A register message without `worker_id`: the source stores the worker under the key `None` and acknowledges `"worker_id": null`. The model gives every register message a string id, so that entry is not modelled.
- JSON `null` members are treated as absent (`specialty`, `role`, `stats`, `detections`). In the source a `specialty` that is present but `null` is stored, then `specialty.lower()` raises and the `finally` block removes the worker and closes the connection; the model instead registers a `Generalist`.
- A detection missing a key raises `KeyError`, which ends the handler; it is not modelled, because messages are modelled already decoded.
- SharedState.StateManager.UpdateSensor: the partial update before a `get` on a non-dictionary raises is not modelled. Such values are turned away when the line is decoded (`SensorLink.BadAxes`).
- Non-number `raining` values and `errors='ignore'` decoding of serial bytes.
- SensorLink.PyValue: a decoded value has no list case, and a nested object holds only numbers. Telemetry such as `"gyro": [1, 2]` or `"gyro": {"x": "a"}`, which makes `update_sensor` raise or store a string, cannot be expressed.
- The camera loop, `cv2`, YOLO and ZeroMQ: boxes are parameters, and drawing is the list of marks with their colour.
- The drawn caption text, which uses float formatting.
- Vision.ClassName: class ids are natural numbers. Python's negative indexing for a negative id is not modelled.
- File I/O in the dataset scripts: a file is its list of lines as `readlines` returns them. Universal newlines, encodings, Unicode digits accepted by `int()` and the `yaml.dump` text format are not modelled.
- YAML documents whose top level is not a mapping, other than the empty document.
- The `ProcessPoolExecutor` runs files one after another here, in the order given. The glob order and the progress prints are not modelled.
- A write that fails partway through a file: a file is either rewritten whole or unwritable.
- LabelFilter.UpdateYaml: the YAML update is a function from document to document rather than an in-place mutation of the loaded dictionary.
