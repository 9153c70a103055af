# Plant-Nanny irrigation controller in Dafny

This project models the control core of the Plant-Nanny ESP32 firmware
(`src/main.cpp`). The firmware reads a soil-moisture sensor and drives an
irrigation relay. It mirrors the motor state to a Firebase realtime
database, and a user interface can override the motor through that
database. The core is a small sequential state machine:

- the globals `isMotorOn`, `manualMode`, `soilMoistureValue` and `sendDataPrevMillis`;
- the level of the active-low relay pin: LOW runs the motor, HIGH stops it;
- the remote store, kept as a map from the five database paths to values;
- a log of every remote write and push the firmware attempted, whether or not the backend accepted it;
- a `ready` flag standing for `Firebase.ready() && signupOK`.

The project has two layers.

- `controller.dfy` (module `Controller`) states each operation of the
  source as a function on a `Snapshot` of that state. The functions'
  `ensures` clauses state what the firmware promises. Examples: `setMotor`
  is idempotent, the pin tracks `isMotorOn`, and exactly two writes are
  attempted, in order. `autoLogic` does nothing in manual mode. A failed
  read changes nothing. Moisture is written and appended only when the
  sample changed.
- `firmware.dfy` (module `Firmware`) holds the class `Irrigation`. Its
  fields are the source's globals, and its methods update them in place in
  the source's order. Each method is proved to leave the object in exactly
  the state the matching `Controller` function computes. The object
  invariant `Valid()` is the active-low polarity plus the type discipline
  of the store.

The other files:

- `remote_store.dfy` (module `RemoteStore`) holds the paths (a datatype,
  each with its literal text, none a prefix of another), stored values,
  attempted writes, the effect of an accepted write, `Replay`, which applies
  a sequence of attempted writes according to the backend's verdicts, and
  `Filter`, which picks the writes to a group of paths out of the log. Every
  operation that writes is proved to leave the store equal to the old store
  with exactly its own new log entries replayed, so the store follows from
  the log and nothing else in it changes.
- `clock.dfy` (module `Clock`) holds the 32-bit `millis()` clock, the
  wrap-around subtraction and the 5-second gate.
- `poll_loop.dfy` (module `PollLoop`) holds `Run`, successive calls of
  `loop`, and the lemmas that hold for every state reached after `setup`.

Collaborators are parameters:

- A remote `getBool` is an `Option<bool>`, and `None` means the read failed.
- The backend's verdict on each attempted write is a function `ack: Verdict`, that is `(nat, Write) -> bool`. It receives the write and its position in the log of the run, so the same write can be accepted at one attempt and rejected at another (a transient failure).
- The ADC sample, the text `getDate` returned, the DHT reading (`None` for NaN) and the two `millis()` readings of one pass are plain values, gathered per pass in `TickInput`.

Two points of the code matter for the model:

- `autoLogic` calls `setMotor(false)` when the moisture exceeds 3500 and
  `setMotor(true)` otherwise. Its comments (lines 196-200) say that dry
  soil turns the motor ON by turning the relay off. But `setMotor(false)`
  writes HIGH, which line 53 documents as motor OFF. The model follows the
  code: dry soil in automatic mode leaves `isMotorOn` false and the pin
  HIGH. Lemma `AutoLogicAsWritten` states this.
- The two reconciliations with the database differ. The one at the end of
  `loop` adopts the remote `isOn` whatever the mode. The one in `readData`
  adopts it only in manual mode. Both are modelled, as `Reconcile` and
  `ReconcileFromRemote`.

## Model

| member | source | states |
|---|---|---|
| RemoteStore.Apply | src/main.cpp:57-126 | an accepted write changes only its own path; reading back a written bool or int gives the value written; a push appends exactly one entry after the existing ones; writes of the right type keep every path's type |
| RemoteStore.PathsPrefixFree | src/main.cpp:58-126 | no path the firmware writes is a prefix of another (so none is a node inside another's subtree and a write to one never replaces another), and distinct paths are distinct strings: the store can be kept as a flat map keyed by path |
| RemoteStore.Replay | src/main.cpp:57-126 | replaying attempted writes in order applies the accepted ones and skips the rejected ones; no path is ever removed, and writes of the right type keep every path's type |
| RemoteStore.ReplayConcat | src/main.cpp:57-126 | replaying two batches of writes one after the other equals replaying them together |
| RemoteStore.ReplayFrame | src/main.cpp:57-126 | a path that none of the writes goes to keeps its value, or stays absent |
| Controller.Attempt | src/main.cpp:58-126 | one attempted write is appended to the log whatever the verdict; the store takes it exactly when the backend accepts it at that log position; control state untouched |
| Controller.RelayLevel | src/main.cpp:53 | the relay is active-low: the pin is LOW exactly when the motor is to run |
| Clock.Elapsed | src/main.cpp:257 | the unsigned 32-bit difference `now - prev` is the unique d below 2^32 with prev + d = now modulo 2^32 |
| Clock.GateOpen | src/main.cpp:257 | the gate opens whenever nothing was ever sent (prev 0), and otherwise exactly when the unsigned 32-bit `now - prev`, written out with its borrow when the counter wrapped, exceeds 5000 ms |
| Clock.ElapsedIsDuration | src/main.cpp:257 | for two clock readings less than 2^32 ms apart, the wrapped difference is the true duration, even when the counter wrapped in between |
| Clock.GateAcrossWrap | src/main.cpp:256-259 | once a send has happened (prev not 0), the gate opens exactly when more than 5000 ms have really passed, across wrap-around |
| Controller.Initial | src/main.cpp:27-33 | at start the motor is off, the relay is HIGH, auto mode holds, the last moisture value is 0 (so a first sample of 0 is never reported), nothing was sent and the store and log are empty; the invariant holds |
| Controller.SetMotor | src/main.cpp:48-72 | same state requested: nothing changes (idempotent); otherwise isMotorOn becomes the request and the pin its active-low level; the log gains exactly `isOn` then `manualMode` when ready and nothing otherwise; accepted writes are readable back; the new store is the old one with exactly those two writes replayed, so every other path keeps its value; a rejected write never rolls back the motor or the pin |
| Controller.SetCurrentMoistureValue | src/main.cpp:74-79 | stores the value locally; writes it to `App/soilMoisture/currentValue` only when ready, and it reads back when accepted; the store changes only by replaying that write |
| Controller.SetTempAndHumidity | src/main.cpp:81-97 | when ready, one write of the reading to `App/environment`, visible in the store when accepted, and the store changes only by replaying it; otherwise nothing changes |
| Controller.SetMoistureDataWithDateAndTimeAsJson | src/main.cpp:121-128 | when ready, one push of {value, date text} to `App/soilMoisture/wholeData`, which when accepted extends the history by exactly that entry, and the store changes only by replaying it; otherwise nothing changes |
| Controller.UpdateMoisture | src/main.cpp:142-147 | afterwards the moisture equals the sample; an unchanged sample changes nothing; a changed one logs the current-value write then the history push, when ready; the store is the old one with those writes replayed |
| Controller.UpdateEnvironment | src/main.cpp:149-160 | a NaN reading changes nothing; a valid one logs one environment write when ready, and the store changes only by replaying it; control state untouched |
| Controller.AdoptManualMode | src/main.cpp:131-133 | a successful read overwrites manualMode with the remote value, with no comparison; a failed read leaves the state unchanged |
| Controller.ReconcileFromRemote | src/main.cpp:131-140 | manualMode takes the remote value exactly when its read succeeds; isMotorOn changes only in manual mode with a successful isOn read, and then equals it; failed reads change nothing; the store changes only by replaying the motor writes |
| Controller.ReadData | src/main.cpp:130-163 | the mode and motor results above; moisture ends equal to the sample; the log only grows and the store is the old one with the new writes replayed; the invariant is kept |
| Controller.ReadDataLog | src/main.cpp:130-163 | every write of one readData, in order: the motor pair (isOn, manualMode) when the motor changed, the current value and one history entry when the sample changed, the environment write for a valid reading; nothing when the session is not ready |
| Controller.ReadDataWrites | src/main.cpp:130-163 | the writes of one readData, sorted by path group: the motor pair only if the motor changed, the current value then exactly one history entry only if the sample changed, the environment write only for a valid reading, each only when the session is ready |
| Controller.AutoLogic | src/main.cpp:193-205 | in manual mode nothing changes; otherwise isMotorOn ends equal to `moisture <= 3500` (as the code is written), and the only writes are those of one setMotor with manualMode false, replayed into the store |
| Controller.AutoLogicAsWritten | src/main.cpp:195-200 | dry soil (above 3500) in auto mode leaves the motor off with the relay HIGH; wet soil turns it on with the relay LOW |
| Controller.Reconcile | src/main.cpp:267-276 | manualMode takes the remote value whenever read; isMotorOn takes the remote isOn whenever read, whatever the mode; both reads failing changes nothing; the store changes only by replaying the motor writes |
| Controller.StampAndRead | src/main.cpp:258-259 | stamps the clock, then readData: its mode and motor results, the moisture equal to the sample, the log only grows and the store is replayed |
| Controller.MainRuns | src/main.cpp:256-257 | the main work runs only in a ready session, and always in a ready session that has never sent |
| Controller.MainWork | src/main.cpp:258-260 | stamps the clock; manualMode takes a successful read; in automatic mode the motor ends as `sample <= 3500` (autoLogic as written), in manual mode as a successful isOn read or unchanged; moisture equals the sample; the store is replayed from the new writes (the writes themselves: `MainWorkLog`) |
| Controller.MainWorkLog | src/main.cpp:258-260 | every write of the main work, in order (`MainWrites`): readData's motor pair if the remote isOn changed the motor, the moisture pair if the sample changed, the environment write for a valid reading, then autoLogic's pair (isOn, manualMode false) if it changed the motor; nothing when the session is not ready |
| Controller.MainWritesGroups | src/main.cpp:130-205 | sorted by path group, the main work's writes are the two setMotor pairs, the moisture pair and the environment write |
| Controller.GatedWork | src/main.cpp:256-265 | the main work runs exactly when the session is ready and the gate opens, with the mode and motor results given by `ModeAfterMain` and `MotorAfterMain`; otherwise only the ready flag is refreshed (the writes: `GatedWorkLog`) |
| Controller.GatedWorkLog | src/main.cpp:256-265 | the gated part logs exactly the main work's writes when the main work runs, and nothing otherwise |
| Controller.ReconcileLog | src/main.cpp:267-276 | the trailing part logs exactly one setMotor pair (isOn, the new manualMode) when a successful isOn read changes the motor in a ready session, and nothing otherwise |
| Controller.Tick | src/main.cpp:255-279 | the stamp and the moisture change only when the main work runs; manualMode and isMotorOn end as the trailing reads when they succeed, otherwise as the main work's control decision (`ModeAfterMain`, `MotorAfterMain`); with the gate closed and both trailing reads failed nothing but the ready flag changes; offline passes write nothing; the store is replayed from the pass's writes (the writes: `TickLog`); the invariant is kept |
| Controller.TickLog | src/main.cpp:255-279 | the complete write log of one pass: the main work's writes when it runs, then the trailing setMotor's pair; no other write |
| Controller.TickMotorWrites | src/main.cpp:255-279 | the motor-path writes of one pass are readData's and autoLogic's setMotor pairs when the main work runs, then the trailing setMotor's pair |
| Controller.TickMoistureWrites | src/main.cpp:255-279 | one pass writes the current value and appends one history entry exactly when the main work runs and the sample changed, and no other moisture write |
| Controller.TickEnvironmentWrites | src/main.cpp:255-279 | one pass writes `App/environment` exactly when the main work runs with a valid reading |
| PollLoop.Run | src/main.cpp:255-279 | successive calls of `loop`; the write log only grows from pass to pass |
| PollLoop.RunKeepsInvariant | src/main.cpp:255-279 | over any number of passes the relay polarity and the store's typing are preserved, the write log only grows, and the store is the starting one with every new write replayed |
| PollLoop.SetupThenRun | src/main.cpp:249 | from setup onward, in every reachable state, the relay is LOW exactly when isMotorOn holds, and the store is the replay of the whole write log |
| PollLoop.RunOffline | src/main.cpp:256 | while the session is never ready, no write is ever attempted and the store is unchanged |
| PollLoop.RunWithoutModeReads | src/main.cpp:268-270 | when no pass reads manualMode successfully, manualMode keeps its value over any number of passes |
| PollLoop.TickModeFromReads | src/main.cpp:255-279 | one pass ends with the mode it started with or with one of the two values it read |
| PollLoop.RunModeFromReads | src/main.cpp:268-270 | over any number of passes manualMode ends as it started or as a value some pass read from the database |
| PollLoop.RunEndsWithLastModeRead | src/main.cpp:268-270 | a successful read at the end of the last pass is the final manualMode, whatever came earlier |
| Firmware.Irrigation.constructor | src/main.cpp:245-253 | the globals' initial values and setup's HIGH relay level give `Controller.Initial` and the object invariant |
| Firmware.Irrigation.Attempt | src/main.cpp:58-126 | one attempted write in place: appended to the log, and applied to the store exactly when the verdict at its log position accepts it, equal to `Controller.Attempt` |
| Firmware.Irrigation.SetMotor | src/main.cpp:48-72 | in-place update equal to `Controller.SetMotor` of the old state; keeps `Valid()` |
| Firmware.Irrigation.SetCurrentMoistureValue | src/main.cpp:74-79 | in-place update equal to `Controller.SetCurrentMoistureValue` |
| Firmware.Irrigation.SetTempAndHumidity | src/main.cpp:81-97 | in-place update equal to `Controller.SetTempAndHumidity` |
| Firmware.Irrigation.SetMoistureDataWithDateAndTimeAsJson | src/main.cpp:121-128 | in-place update equal to `Controller.SetMoistureDataWithDateAndTimeAsJson` |
| Firmware.Irrigation.ReconcileFromRemote | src/main.cpp:131-140 | in-place update equal to `Controller.ReconcileFromRemote` |
| Firmware.Irrigation.UpdateMoisture | src/main.cpp:142-147 | in-place update equal to `Controller.UpdateMoisture` |
| Firmware.Irrigation.UpdateEnvironment | src/main.cpp:149-160 | in-place update equal to `Controller.UpdateEnvironment` |
| Firmware.Irrigation.ReadData | src/main.cpp:130-163 | in-place update equal to `Controller.ReadData` |
| Firmware.Irrigation.AutoLogic | src/main.cpp:193-205 | in-place update equal to `Controller.AutoLogic` |
| Firmware.Irrigation.Reconcile | src/main.cpp:267-276 | in-place update equal to `Controller.Reconcile` |
| Firmware.Irrigation.MainWork | src/main.cpp:258-260 | in-place update equal to `Controller.MainWork` |
| Firmware.Irrigation.Tick | src/main.cpp:255-279 | one pass of `loop` in place, equal to `Controller.Tick`; keeps `Valid()` |

## Left out

- WiFi association, Firebase sign-up, authentication and the token callback (`connectToWiFi`, `setupFirebase`, lines 166-191) are network and SDK plumbing. Their outcome is the `ready` flag. The model samples it once per pass of `loop`, so a session that drops in the middle of a pass is not modelled.
- `callAPI` and `getDate` (lines 99-119) are HTTP client calls. The text they return, including the `"WiFi Disconnected"` and `"Error: <code>"` strings, is an opaque `date` parameter stored as it is.
- `sendDataToThingSpeak` (lines 207-243), together with the DHT re-read on line 261 that feeds it, is socket I/O with a `millis()` busy-wait timeout and float-to-text formatting. It changes none of the modelled state.
- DHT temperature and humidity are carried as opaque `real` values. A NaN reading is `None`, which skips the `App/environment` write.
- `Serial` logging, `delay`, `pinMode`, `dht.begin` and the credential constants are not modelled. They are side effects with no logic to state. Only the relay level is kept.
- The global `autoMotorOnOff` (line 31) is never read, so it is not modelled.
- The store map holds only what this device wrote. Writes by other clients, such as the user interface setting `manualMode`, are not modelled as changes to the map. They reach the firmware only through the read parameters, which the model does not tie to the map.
- The backend's error reason for a rejected write is not modelled; only the verdict is.
- The moisture sample is any `int`. The 12-bit range of the ADC is not assumed.
