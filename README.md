# Trip recording core of the driving-monitor app

This project models the part of the driving-behaviour monitor that records a trip from the phone's motion sensors and submits it for scoring. Everything else in the app is screens, forms and navigation. The model is written in Dafny and every contract below is proved.

The model follows the code in five source files:

- **Trip screen** (`src/screens/TripScreen.js`): a session over `tripActive`, `sensorData`, `score`, `events` and `loading`.
  - While a trip is active, each sensor callback appends one tagged reading `{x, y, z, …, type}` to the buffer.
  - `stopTrip` copies and clears the buffer before it awaits the network.
  - The payload holds one nine-key entry per buffered reading. The reading's own axis group is copied and the other two groups are 0.
  - The response sets `score` and `events`. Only null or missing fields are defaulted.
  - The score→feedback rule and the enable rules of the Start and Stop buttons are modelled too.
  - The await splits `stopTrip` into two atomic steps: `TripSession.Stop` (everything up to the await, returning the request) and `TripSession.Settle` (the response handling and its `finally`). Other callbacks and button presses may run between the two.
- **Sensor recorder** (`src/hooks/useSensorRecorder.js`): rows keyed on accelerometer readings.
  - An accelerometer reading appends a new row at once and keeps it as `latestRow`.
  - A gyroscope reading writes `gyro_x/y/z` into that same object, which is the last row of `data`. It is dropped when this activation has seen no accelerometer reading.
  - `data` is never cleared.
  - The pure specification (`RecState`, `Step`, `Replay`) is what the `Recorder` class's methods are proved against. The lemmas about `Replay` state the properties that hold over many callbacks.
- **Subscription hook** (`src/hooks/useSensors.js`): the effect keyed on `active`.
  - It sets the update intervals (100, 100 and 200 ms), then subscribes the three streams.
  - Its cleanup unsubscribes each stream inside its own guard.
- **Sensor service** (`src/sensors/SensorService.js`): `startSensorListeners`.
  - It sets two intervals, then opens two subscriptions through an `{x, y, z}` projection.
  - The stop function it returns unsubscribes the accelerometer and then the gyroscope, with no guard between the two.
- **Trip service** (`src/services/tripService.js`): `POST /predict`.
  - The trip data is the request body, unchanged.
  - An `Authorization: Bearer <token>` header is sent only for a truthy token.

The sensor library is a stand-in (`SensorPlatform`):

- It keeps an ordered log of the interval settings and subscriptions it was asked for.
- Each subscription has a `subscribed` flag and an `unsubscribe` that may throw. The `fail` parameter says whether it throws.

Other stand-ins:

- `Date.now()` is the `now` parameter of the recorder's accelerometer callback.
- The awaited HTTP call is the `outcome` parameter of `TripSession.Settle`.
- `user?.token` is the `token` parameter of `TripSession.Stop`.
- Alert dialogs on the trip screen are recorded as `alerts`. The `console.log` calls in the stream error handlers of `useSensors` are recorded as `errorLog`.

Where the code and the design description of the system disagree, the model follows the code:

- The description has a correlator that flushes a row when the next accelerometer reading arrives and also merges magnetometer readings. In the code, `useSensorRecorder` appends each row the moment its accelerometer reading arrives and merges gyroscope readings only.
- The trip screen does not use that correlator at all. Its payload has one zero-padded entry per individual reading.
- The description says a failed submission is reported as a distinct failure. In the code it only shows an alert and leaves `score` and `events` as they were. So after a start, a failed stop leaves `score` null.
- The description says a missing or malformed score defaults to 0. The code defaults only a null or undefined score (`??`). Any other value, malformed or not, is stored as it came.
- The description says the cancellation handle never throws. That holds for the `useSensors` cleanup, but not for the stop function of `startSensorListeners`.
- The description says `start` is refused while a trip is recording. The code enforces this only by disabling the Start button. `startTrip` itself has no guard, and a pending submission (`loading`) does not disable Start.

## Model

| member | source | states |
|---|---|---|
| `TripScreen.EntryFor` | src/screens/TripScreen.js:48-58 | the entry's group for the reading's own sensor equals the reading's x, y, z, and both other groups are all 0 |
| `TripScreen.BuildTripData` | src/screens/TripScreen.js:47-59 | one entry per buffered reading, in the same order, each carrying only its own reading's axes with the other six keys 0; an empty buffer gives `{sensors: []}` |
| `TripScreen.BuildAppend` | src/screens/TripScreen.js:47-59 | the payload is built entry by entry: the payload of `a + b` is the payload of `a` followed by the payload of `b`, so readings are never correlated across entries |
| `TripScreen.FeedbackFor` | src/screens/TripScreen.js:164-166 | "Excellent" iff score ≥ 80, "Good job" iff 60 ≤ score < 80, "Room for improvement" iff score < 60 |
| `TripScreen.TripSession.constructor` | src/screens/TripScreen.js:19-23 | a new screen is inactive, not loading, with an empty buffer, null score and no events |
| `TripScreen.TripSession.OnReading` | src/screens/TripScreen.js:28-36 | while a trip is active, a callback appends exactly one `{sample, type}` reading at the end; otherwise the buffer is unchanged; earlier entries and all other state never change |
| `TripScreen.TripSession.Start` | src/screens/TripScreen.js:61-66 | `startTrip` empties the buffer, sets score to null and events to `[]`, and makes the trip active, whatever `loading` is |
| `TripScreen.TripSession.Stop` | src/screens/TripScreen.js:68-78 | before the await: inactive, loading, buffer cleared; the request is a POST to `/predict` of the payload built from the buffer as it was at the call; score, events and alerts are unchanged |
| `TripScreen.TripSession.Settle` | src/screens/TripScreen.js:76-91 | with truthy `data`, score is `data.score ?? 0` and events are `data.events ?? []`; with no `data` or a thrown error, score and events are kept and the matching alert is shown; `loading` ends false in every case; buffer and `tripActive` are untouched |
| `TripScreen.TripSession.PressStart` | src/screens/TripScreen.js:120-137 | the Start button acts (as `startTrip`) exactly when no trip is active, even while loading; otherwise nothing changes |
| `TripScreen.TripSession.PressStop` | src/screens/TripScreen.js:139-152 | the Stop button issues a request exactly when a trip is active and not loading, and that request is the `sendTripData` request for the payload built from the buffer at the press; otherwise nothing changes |
| `SensorRecorder.Activate` | src/hooks/useSensorRecorder.js:9-11 | a new activation resets `latestRow` to `{}` and keeps every row of `data` |
| `SensorRecorder.Step` | src/hooks/useSensorRecorder.js:14-28 | an accelerometer reading appends `{timestamp, acc}` with no gyro fields and makes it `latestRow`; a gyroscope reading with no `latestRow` changes nothing; otherwise it overwrites the gyro group of the last row only, leaving every other row, the row count and `latestRow` as they were |
| `SensorRecorder.Replay` | src/hooks/useSensorRecorder.js:13-29 | any sequence of callbacks keeps `latestRow`, when set, pointing at the last row |
| `SensorRecorder.StepStamps` | src/hooks/useSensorRecorder.js:14-28 | one callback adds the `(timestamp, acc)` of an accelerometer reading at the end and changes no row's timestamp or acc values |
| `SensorRecorder.ReplayStamps` | src/hooks/useSensorRecorder.js:6-28 | after any callbacks, the rows' `(timestamp, acc)` are the old rows' followed by one per accelerometer reading in arrival order: rows are only appended, never cleared, and no gyroscope reading adds a row or changes a timestamp or acc value |
| `SensorRecorder.RowCount` | src/hooks/useSensorRecorder.js:14-21 | rows added equal accelerometer readings received |
| `SensorRecorder.ReplayKeepsClosedRows` | src/hooks/useSensorRecorder.js:15-27 | a row that is not `latestRow` is never changed by later callbacks |
| `SensorRecorder.GyroBeforeAccelDropped` | src/hooks/useSensorRecorder.js:11-24 | gyroscope readings before the first accelerometer reading of an activation leave the state unchanged, even when `data` already holds rows |
| `SensorRecorder.LastGyroWins` | src/hooks/useSensorRecorder.js:15-27 | after an accelerometer reading followed only by gyroscope readings, exactly one row was added, it is `latestRow`, the older rows are unchanged, and its gyro group is the last gyroscope reading's (no gyro fields if there was none) |
| `SensorRecorder.Recorder.constructor` | src/hooks/useSensorRecorder.js:5-6 | a new hook instance has no rows, no `latestRow` and is not recording |
| `SensorRecorder.Recorder.OnAccelerometer` | src/hooks/useSensorRecorder.js:14-21 | the accelerometer callback performs `Step` for the projected reading (its x, y, z) and `now`, keeping the invariant that `latestRow` is the last row |
| `SensorRecorder.Recorder.OnGyroscope` | src/hooks/useSensorRecorder.js:23-28 | the gyroscope callback performs `Step` for the projected reading, keeping the invariant |
| `SensorRecorder.Recorder.SetRecording` | src/hooks/useSensorRecorder.js:8-32 | the effect re-runs only when `isRecording` changes; `data` is never changed; turning on resets `latestRow` and starts fresh listeners whose two subscriptions are fresh and live; staying off starts nothing; turning off invokes the listeners' stop function, accelerometer first (a throw there leaves the gyroscope subscribed), and surfaces its exception |
| `SensorService.Project` | src/sensors/SensorService.js:13-20 | a delivered reading is projected to exactly its x, y and z |
| `SensorService.ProjectDropsTimestamp` | src/sensors/SensorService.js:14 | the projection does not depend on the library's timestamp |
| `SensorRecorder.AccelRowStamp` | src/hooks/useSensorRecorder.js:14-21 | a delivered accelerometer reading opens a row carrying its x, y, z and the `Date.now()` time, with no gyro fields; the reading's own timestamp has no effect on the state |
| `SensorService.SensorListeners.Start` | src/sensors/SensorService.js:9-20 | sets accelerometer and gyroscope intervals to 100, then subscribes the accelerometer and then the gyroscope, nothing else; the magnetometer interval is untouched; both fresh subscriptions are live |
| `SensorService.SensorListeners.Stop` | src/sensors/SensorService.js:22-25 | unsubscribes the accelerometer first; if that throws, the exception escapes and the gyroscope is neither attempted nor unsubscribed; otherwise the gyroscope is attempted and any throw escapes |
| `UseSensors.ActivationIntervals` | src/hooks/useSensors.js:8-10 | after an activation the intervals in force are 100 (accelerometer), 100 (gyroscope) and 200 (magnetometer) |
| `UseSensors.SensorsEffect.Mount` | src/hooks/useSensors.js:4-21 | the first render runs the effect: inactive configures and subscribes nothing and leaves no cleanup; active appends the six activation actions and holds three distinct, fresh, live subscriptions |
| `UseSensors.SensorsEffect.Run` | src/hooks/useSensors.js:5-15 | when inactive nothing is configured or subscribed and no cleanup is left; when active the three intervals are set and then each kind is subscribed exactly once, to three distinct fresh live subscriptions |
| `UseSensors.SensorsEffect.Cleanup` | src/hooks/useSensors.js:16-20 | all three unsubscribes are attempted; each one that does not throw ends its subscription; a throwing one affects no other; the cleanup itself never throws |
| `UseSensors.SensorsEffect.Update` | src/hooks/useSensors.js:5-21 | subscriptions are re-created only when `active` changes: an unchanged `active` touches nothing; a change runs the old cleanup first (each old subscription is attempted, and ends unless its unsubscribe throws) and then the effect, which when turning on holds three distinct, fresh, live subscriptions |
| `UseSensors.SensorsEffect.Unmount` | src/hooks/useSensors.js:16-20 | unmounting runs the pending cleanup whatever the session state: each subscription is attempted and ends unless its unsubscribe throws; `active` and the error log are kept |
| `UseSensors.SensorsEffect.OnStreamError` | src/hooks/useSensors.js:12-14 | a stream error is only logged: no subscription and no other state changes |
| `TripService.AuthHeaders` | src/services/tripService.js:3-4 | an Authorization header is present iff the token is truthy, and `sendTripData` sets no other header |
| `TripService.HeaderRoundTrip` | src/services/tripService.js:3-4 | the header reads back as `Bearer ` followed by exactly the token when it is truthy; a null, omitted or empty token gives empty headers |
| `TripService.SendTripData` | src/services/tripService.js:3-5 | a POST to `/predict` whose body is the trip data unchanged, whose headers are exactly `AuthHeaders(token)`, carrying the bearer token iff it is truthy |

## Left out

- Rendering, styles, navigation, authentication, and the HTTP client's own behaviour (timeouts, status handling) are not modelled. So the model does not say when the request's promise rejects.
- React scheduling is not modelled. Each callback and each state update is one atomic step, applied immediately. There is no batching, no lazily run updater (`useSensorRecorder.js:21`) and no stale closure.
- `TripSession` and `SensorsEffect` are two separate objects. The screen passes `tripActive` as the hook's `active`; here that is `SensorsEffect.Update` called with the new value, not a call made by `Start` or `Stop`.
- A late response that settles after a new `startTrip` is not ordered against it. `Settle` applies to whatever state it finds.
- Readings are not delivered through the subscriptions in the model. In particular, a subscription left live after a failed unsubscribe still calls an old activation's callbacks with their own `latestRow`, and that is not modelled.
- `console.error` in `stopTrip` (`TripScreen.js:87`) and the error handlers of `startSensorListeners` (`SensorService.js:15`, `:20`) are not modelled: they only write to the console.
- Headers that the shared HTTP client adds to every request (such as `Content-Type`) are not part of this model. `src/services/api.js` is not part of this model.
- `UseSensors.SensorsEffect.Mount`: the hook's default `active = true` is not modelled. `Mount` takes `active` explicitly, as the trip screen always passes it.
- The recorder has no unmount step of its own. Unmounting while recording runs the same cleanup as `SetRecording(false)`.
- `SensorRecorder.Step`: the gyroscope guard `!latestRow.timestamp` is modelled as "no accelerometer reading yet in this activation". The drop that would happen for a row with timestamp 0 is not modelled.
- Sample values are reals and no arithmetic is done on them. Floating point is not modelled, and neither are JavaScript values of other types (a non-string token, a non-numeric score).
- The raw reading's fields other than x, y, z and timestamp are not modelled.
