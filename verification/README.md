# Heart live monitoring — session and data-flow core in Dafny

This project models the part of the heart live-monitoring desktop
application that coordinates an experiment session. It covers six parts:

- The **session manager** is a two-state machine, idle or active. On
  start it asks the local store for a session row, tags the sensor
  service with the new id, and asks the capture server to start the
  session and the camera streams. On stop it reverses all of that. While
  a session is active, every image or point-cloud frame delivered on a
  typed channel is handed to the store's `insertSessionFile` as a file
  record. Raw messages, unknown file types and point-cloud payloads that
  fail to parse never reach it.
- The **capture-server client** demultiplexes one WebSocket message into
  emissions on its raw, bmp, jpg and point-cloud channels. It also issues
  the REST commands: start and stop the streams, start and stop the
  session, reconnect the camera, the hardware trigger, the laser and the
  status query.
- The **sensor service** turns each CR LF-delimited line from the Arduino
  into a reading. It tags the reading with the current session id, emits
  it to subscribers and hands it to the store's `insertSensorReading`. It also frames the commands written back to the
  board.
- The **EKG / pressure chart** keeps a rolling buffer of the last 200
  readings.
- The **session controls** derive the begin and end buttons from the
  session state, and name each session after the minute it starts in.
- The **point-cloud viewer** accepts non-empty point arrays. For each
  one it replaces the single points object of its scene with one built
  from a flat `x, y, z` position buffer.

Modelling choices:

- **State and effects.**
  - Services and components that update fields are Dafny classes.
  - The store is one shared `Db.Store`, which keeps the log of every call
    made to it. What the store then does with a call is not modelled.
  - Commands sent to the capture server are logged in the manager's
    `commands` field.
  - Writes to the serial port are logged in `written`.
  - Sensor readings emitted to subscribers are logged in `emitted`.
- **`JSON.parse` is abstract.** Its outcome is an input.
  - A socket message becomes `CppApi.Decoded`.
  - A sensor line becomes `ArduinoSerial.SensorLine`.
  - The parse of a `pointcloud-json` payload is a function parameter.
- **The clock is a parameter.** The instant `new Date()` would give is
  passed in as `Time`.
- **Store outcomes.** `createSession`'s outcome is passed in: an id, or
  `None` when it throws. The results of every other store call and every
  HTTP call are only logged by the source, so they are not inputs.
- **JavaScript truthiness** of ids and strings is kept. Session id `0`
  and the empty string are falsy. `x || y` is `Common.OrElse`.
- **`null` values.** A `null` socket message and a `null` sensor line
  make the source throw a `TypeError`. This happens after the raw
  emission, and before any effect for a sensor line. The model reports it
  as the `escaped` flag rather than treating the input as invalid.
- **Partners.** Each operation is paired with a partner that a lemma
  proves it against:
  - The serial framing is paired with a CR LF line reader
    (`FramingRoundTrip`).
  - The request descriptors are paired with the endpoint table that
    reads them back (`RequestRoundTrip`).
  - The session name is paired with its parser (`SessionNameRoundTrip`).
  - The stored file path is paired with a splitter (`SplitFilePath`).
  - The chart's push/shift step is paired with "the last `maxPoints`
    points" (`ReplayIsLastN`).
  - The position loop is paired with a recursive flattening
    (`FillPositions`).

## Model

| member | source | states |
|---|---|---|
| Db.Store.Record | src/app/services/db/db.service.ts:122-212 | each call into the store's write methods is appended to the call log, in order, and nothing else changes |
| CppApi.TypedEmission | src/app/services/cpp-api/cpp-api.service.ts:95-149 | at most one typed emission, never on the raw channel, and only when `fileType` and `payload` are both non-empty |
| CppApi.HandleWsMessage | src/app/services/cpp-api/cpp-api.service.ts:80-150 | unparseable text emits nothing; parsed JSON is emitted on the raw channel first, followed by at most one typed emission; the handler throws exactly on a `null` message, and then after the raw emission alone, before any typed channel |
| CppApi.NotJsonEmitsNothing | src/app/services/cpp-api/cpp-api.service.ts:82-87 | a parse failure reaches no channel and does not throw |
| CppApi.MissingFieldsOnlyRaw | src/app/services/cpp-api/cpp-api.service.ts:90-98 | a message with an absent or empty `fileType` or `payload` is only emitted raw |
| CppApi.ImageDispatch | src/app/services/cpp-api/cpp-api.service.ts:101-117 | `bmp` and `jpg` emit one image on their own channel carrying the payload, with `unknown.bmp` / `unknown.jpg` and `""` as defaults |
| CppApi.PlyDispatch | src/app/services/cpp-api/cpp-api.service.ts:119-130 | `ply` emits one point-cloud event carrying the undecoded payload, default name `cloud.ply` |
| CppApi.PointCloudJsonDispatch | src/app/services/cpp-api/cpp-api.service.ts:132-144 | `pointcloud-json` emits the parsed payload as one point-cloud event when it parses (default name `cloud.json`), and no typed event when it does not |
| CppApi.UnknownTypeOnlyRaw | src/app/services/cpp-api/cpp-api.service.ts:146-148 | any other `fileType` is only emitted raw |
| CppApi.Flag | src/app/services/cpp-api/cpp-api.service.ts:227-239 | a boolean parameter is `'1'` exactly when true, `'0'` otherwise |
| CppApi.Url | src/app/services/cpp-api/cpp-api.service.ts:20 | every URL is the base `http://localhost:8080` followed by the request's path |
| CppApi.RequestFor | src/app/services/cpp-api/cpp-api.service.ts:187-246 | only the status query is a GET; every request has at most one query parameter |
| CppApi.RequestRoundTrip | src/app/services/cpp-api/cpp-api.service.ts:187-246 | every request a wrapper builds is read back by the endpoint table as the command that built it |
| CppApi.UrlRoundTrip | src/app/services/cpp-api/cpp-api.service.ts:187-246 | the command is read back from the absolute URL's path after the base, the verb and the parameters |
| CppApi.RequestForInjective | src/app/services/cpp-api/cpp-api.service.ts:187-246 | distinct commands never produce the same request |
| ArduinoSerial.SessionTag | src/app/services/arduino-serial/arduino-serial.service.ts:119 | a reading is tagged exactly when the current id is set and non-zero, and then with that id |
| ArduinoSerial.ReadingOf | src/app/services/arduino-serial/arduino-serial.service.ts:99-120 | a line yields a reading exactly when it is JSON with both `EKG` and `Pressure` defined; the reading carries those values, the current instant and the session tag |
| ArduinoSerial.Frame | src/app/services/arduino-serial/arduino-serial.service.ts:149 | the bytes written are the message followed by CR and LF |
| ArduinoSerial.CrlfIndex | src/app/services/arduino-serial/arduino-serial.service.ts:85 | finds the first CR LF pair of the input, or reports that there is none |
| ArduinoSerial.FirstLine | src/app/services/arduino-serial/arduino-serial.service.ts:149 | a framed message without CR is delimited exactly at its own end |
| ArduinoSerial.FramingRoundTrip | src/app/services/arduino-serial/arduino-serial.service.ts:143-156 | a CR LF reader gives back the written messages, one per line, in order |
| ArduinoSerial.ArduinoSerialService.constructor | src/app/services/arduino-serial/arduino-serial.service.ts:21-29 | no port, not connected, no session id, nothing emitted or written |
| ArduinoSerial.ArduinoSerialService.OpenPort | src/app/services/arduino-serial/arduino-serial.service.ts:79-81 | the port of the Arduino that was found now exists |
| ArduinoSerial.ArduinoSerialService.StartReading | src/app/services/arduino-serial/arduino-serial.service.ts:84-89 | once the parser is attached the service is connected |
| ArduinoSerial.ArduinoSerialService.HandleSerialData | src/app/services/arduino-serial/arduino-serial.service.ts:99-131 | a valid line is emitted once and handed once to `insertSensorReading`, tagged with the current session; any other line changes nothing; the handler throws exactly on a `null` line |
| ArduinoSerial.ArduinoSerialService.SetSessionId | src/app/services/arduino-serial/arduino-serial.service.ts:136-138 | the id is recorded; id 0 leaves later readings untagged |
| ArduinoSerial.ArduinoSerialService.SendToArduino | src/app/services/arduino-serial/arduino-serial.service.ts:143-156 | nothing is written without an open, connected port; otherwise exactly the message followed by CR LF |
| SessionManager.FilePath | src/app/services/session-manager/session-manager.service.ts:95 | the stored path is the session folder, one `/`, then the file name |
| SessionManager.HasActiveSession | src/app/services/session-manager/session-manager.service.ts:87 | a session is active exactly when it is started and its id is one the sensor service would tag readings with (set and non-zero) |
| SessionManager.LastSlash | src/app/services/session-manager/session-manager.service.ts:95 | finds the last `/` of a path, or reports that there is none |
| SessionManager.SplitFilePath | src/app/services/session-manager/session-manager.service.ts:95 | a stored path splits back into its folder and file name when the name has no `/` |
| SessionManager.FileRecord | src/app/services/session-manager/session-manager.service.ts:86-104 | a file record exists exactly while a session is started with a truthy id, and carries that id, the path, the type and the instant |
| SessionManager.IncomingFileOf | src/app/services/session-manager/session-manager.service.ts:53-70 | bmp and jpg images keep their type, every point cloud is a `pointcloud` file, and the raw channel is not subscribed to |
| SessionManager.SessionManagerService.constructor | src/app/services/session-manager/session-manager.service.ts:26-30 | the manager starts idle with no command sent |
| SessionManager.SessionManagerService.GetActiveSessionState | src/app/services/session-manager/session-manager.service.ts:230-232 | in every reachable state a session is started exactly when it has an id and a name |
| SessionManager.SessionManagerService.StartSession | src/app/services/session-manager/session-manager.service.ts:118-161 | a session row is always requested; on success the new id and name become active whatever was active before, the sensor service is given the id, and the start-session and start-streams commands are sent in that order; on failure nothing else changes |
| SessionManager.SessionManagerService.StopSession | src/app/services/session-manager/session-manager.service.ts:170-210 | without an active session nothing changes; otherwise stop-session and stop-streams are sent, the session is ended in the store under its id, the manager is idle, and the sensor service gets id 0 |
| SessionManager.SessionManagerService.HandleNewFile | src/app/services/session-manager/session-manager.service.ts:79-110 | exactly the file record of `FileRecord` is handed to `insertSessionFile`: one tagged with the active id while a session is active, none otherwise |
| SessionManager.SessionManagerService.OnEmission | src/app/services/session-manager/session-manager.service.ts:53-70 | a typed emission becomes the file record of its frame while a session is active; a raw emission changes nothing |
| SessionManager.SessionManagerService.ReconnectCamera | src/app/services/session-manager/session-manager.service.ts:216-225 | exactly one reconnect command is sent |
| SessionManager.SessionManagerService.ReadingsFollowSession | src/app/services/session-manager/session-manager.service.ts:135-136 | while a session is active, sensor readings carry its id; while idle they are untagged |
| EkgChart.PointOf | src/app/components/ekg-pressure-chart/ekg-pressure-chart.component.ts:68-72 | the point drawn carries the reading's timestamp, EKG and pressure |
| EkgChart.LastN | src/app/components/ekg-pressure-chart/ekg-pressure-chart.component.ts:46 | the last `n` points of a history, or all of them when there are fewer |
| EkgChart.Step | src/app/components/ekg-pressure-chart/ekg-pressure-chart.component.ts:75-78 | one push/shift grows the buffer by one while it is under the limit and keeps its length once it would exceed it |
| EkgChart.StepShape | src/app/components/ekg-pressure-chart/ekg-pressure-chart.component.ts:75-78 | below capacity a reading is appended; at capacity the oldest point is dropped; the new point is last and the bound holds |
| EkgChart.ReplayIsLastN | src/app/components/ekg-pressure-chart/ekg-pressure-chart.component.ts:75-78 | after any sequence of readings the buffer holds exactly the last `maxPoints` of them, in arrival order |
| EkgChart.EkgPressureChartComponent.constructor | src/app/components/ekg-pressure-chart/ekg-pressure-chart.component.ts:29 | the buffer starts empty |
| EkgChart.EkgPressureChartComponent.HandleNewReading | src/app/components/ekg-pressure-chart/ekg-pressure-chart.component.ts:67-82 | the buffer is the last 200 points received, the new one last, the oldest dropped only at capacity |
| SessionControls.NatToString | src/app/components/session-controls/session-controls.component.ts:163-168 | a non-negative number prints as a non-empty run of digits, one digit exactly below 10 |
| SessionControls.PadStart2 | src/app/components/session-controls/session-controls.component.ts:163-168 | `padStart(2, '0')`: a string of two or more characters is unchanged, a shorter one becomes exactly two |
| SessionControls.CreateSessionName | src/app/components/session-controls/session-controls.component.ts:161-169 | a name starts with `session_` and has at least 21 characters; `SessionNameRoundTrip` shows it determines its minute |
| SessionControls.NatRoundTrip | src/app/components/session-controls/session-controls.component.ts:163-168 | decimal printing is read back as the same number |
| SessionControls.IntRoundTrip | src/app/components/session-controls/session-controls.component.ts:163 | signed decimal printing is read back as the same number |
| SessionControls.PaddedField | src/app/components/session-controls/session-controls.component.ts:163-168 | a field in 0..99 pads to exactly two characters denoting it |
| SessionControls.TailRoundTrip | src/app/components/session-controls/session-controls.component.ts:163-168 | the part after the year has 12 characters and reads back as the month counted from 1, date, hours and minutes |
| SessionControls.SessionNameRoundTrip | src/app/components/session-controls/session-controls.component.ts:161-169 | the session name determines the local minute it was created in: it parses back to every calendar field |
| SessionControls.SessionControlsComponent.ShouldDisplayBeginButton | src/app/components/session-controls/session-controls.component.ts:129-133 | begin is never offered while a session is active |
| SessionControls.SessionControlsComponent.ShouldEnableEndButton | src/app/components/session-controls/session-controls.component.ts:148-152 | end is always enabled while a session is active |
| SessionControls.SessionControlsComponent.ShouldEnableInitialPhotoButton | src/app/components/session-controls/session-controls.component.ts:124-127 | enabled in every session state |
| SessionControls.SessionControlsComponent.ShouldDisplayContinueButton | src/app/components/session-controls/session-controls.component.ts:135-138 | hidden in every session state |
| SessionControls.SessionControlsComponent.ShouldEnableContinueButton | src/app/components/session-controls/session-controls.component.ts:140-142 | disabled in every session state |
| SessionControls.SessionControlsComponent.ShouldEnablePauseButton | src/app/components/session-controls/session-controls.component.ts:144-146 | disabled in every session state |
| SessionControls.SessionControlsComponent.ShouldEnableResetButton | src/app/components/session-controls/session-controls.component.ts:154-156 | disabled in every session state |
| SessionControls.SessionControlsComponent.BeginOrEnd | src/app/components/session-controls/session-controls.component.ts:129-152 | exactly one of begin and end is offered: begin while idle, end while started |
| SessionControls.SessionControlsComponent.FixedButtons | src/app/components/session-controls/session-controls.component.ts:124-156 | the initial-photo button is enabled and the continue, pause and reset buttons are off |
| SessionControls.SessionControlsComponent.Begin | src/app/components/session-controls/session-controls.component.ts:59-62 | the manager's start with the generated name: a session row is always requested; on success that id and name become active, the sensor service gets the id, start-session and start-streams are sent in order, and end is offered instead of begin; on failure nothing else changes |
| SessionControls.SessionControlsComponent.End | src/app/components/session-controls/session-controls.component.ts:87-89 | the manager's stop: with an active session, stop-session and stop-streams are sent, the session is ended under its id, the manager is idle, the sensor service gets id 0 and begin is offered again; otherwise state, commands, store calls and the sensor id are unchanged |
| PointcloudViewer.Positions | src/app/components/pointcloud-viewer/pointcloud-viewer.component.ts:104-109 | the buffer has three numbers per point, the `x`, `y`, `z` of point `i` at `3i`, `3i+1`, `3i+2` |
| PointcloudViewer.FillPositions | src/app/components/pointcloud-viewer/pointcloud-viewer.component.ts:104-109 | the loop fills a new array of length `3n` equal to the flattening of the points |
| PointcloudViewer.Accepts | src/app/components/pointcloud-viewer/pointcloud-viewer.component.ts:52-56 | a PLY text payload is never accepted; accepted data is a parsed point array with at least one point, hence at least three positions |
| PointcloudViewer.RemoveLast | src/app/components/pointcloud-viewer/pointcloud-viewer.component.ts:96-101 | removing the points object from the scene leaves the lights in place |
| PointcloudViewer.PointcloudViewerComponent.constructor | src/app/components/pointcloud-viewer/pointcloud-viewer.component.ts:66-92 | the scene holds the two lights and no cloud |
| PointcloudViewer.PointcloudViewerComponent.OnPointCloud | src/app/components/pointcloud-viewer/pointcloud-viewer.component.ts:45-63 | empty or non-array data changes nothing; accepted data becomes the latest cloud and a new points object over its positions |
| PointcloudViewer.PointcloudViewerComponent.BuildPointCloudObject | src/app/components/pointcloud-viewer/pointcloud-viewer.component.ts:94-135 | the previous points object leaves the scene, and the scene ends with the lights and exactly one new object over the flattened positions |
| Scenarios.TrialSession | src/app/services/session-manager/session-manager.service.ts:118-210 | start, one reading, one frame, stop: the store is called to create the session, insert the tagged reading, insert the file record and end the session, in that order, and the manager is idle |
| Scenarios.RestartWithoutStop | src/app/services/session-manager/session-manager.service.ts:118-161 | a second start while active replaces the active id; the first session is never ended in the store |
| Scenarios.ReadingAfterStop | src/app/services/session-manager/session-manager.service.ts:209 | after a stop, readings are still handed to `insertSensorReading`, untagged |

## Left out

- WebSocket lifecycle: connecting, reconnect timers and close handling in the capture-server client are I/O. Only the message handler is modelled.
- HTTP transport: the Observables, the response bodies and the URL encoding of query parameters. The source only logs responses, so none of them is an input.
- What the store does with a call. `insertSensorReading` only logs in the application (`src/app/services/db/db.service.ts:209-212`), so no reading is persisted. `createSession`, `endSession` and `insertSessionFile` throw while the database is not open (`db.service.ts:123`, `:136`, `:173`). The manager catches these throws and logs them (`session-manager.service.ts:107-109`, `:158-160`, `:197-199`). The model records every call; the failure of `createSession` is its `None` input.
- The chart is never fed in the application: `svg` is never assigned (`src/app/components/ekg-pressure-chart/ekg-pressure-chart.component.ts:32`), so `initChart` throws at `:89` inside `ngOnInit`, before the subscription at `:53` is made. The model describes `handleNewReading` as if readings reached it.
- The store's engine: the SQL schema, the queries and the id allocation of the store service. Only the calls made into it are modelled, and the id `createSession` returns is an input.
- Serial port discovery by manufacturer or vendor id, the baud rate and the one-second attach delay. Only their effect on the `portOpen` and `isConnected` fields is modelled.
- `Number()` conversion of sensor fields, and JSON values of other types in the socket envelope. A field that is present is taken to be the number or string the code expects.
- Elements of a parsed point-cloud array that are not point records. The array is modelled as a sequence of points.
- Floating point: positions are copied into a `Float32Array` in the source and into an exact array here, so rounding is not modelled.
- Rendering: the Three.js renderer, camera placement, materials, geometry disposal and the animation loop; and the chart's d3 scales, axes, the ±10 padding and redrawing.
- Subscriptions: `ngOnInit` wiring, `ngOnDestroy`, `dispose` and unsubscribing. Deliveries are modelled as direct calls of the handlers.
- Console-only actions of the session controls (`continue`, `pause`, `reset`, `hardReset`, `takeInitialPhoto`, `setDecellularizationStatus`): they only log.
- Interleavings at `await` points: each asynchronous operation runs to completion before the next one starts.
- SessionManager.SessionManagerService.HandleNewFile: the `payload` argument is never used by the source, so it is not a parameter.
- The camera feed, the pages and the other UI files are not part of this model.
