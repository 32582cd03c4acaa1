# Azure Sphere rover gateway, modelled in Dafny

This project models four parts of a small IoT system:

- **Sensor-frame recogniser.** An Azure Sphere application reads sensor frames
  (`sensors:temp=…,humi=…,pres=…,alti=…:`) from an Arduino over a UART in a receive thread.
  It publishes the last frame into a shared cache.
- **Telemetry.** Every few seconds the application sends a JSON telemetry message to Azure IoT Hub.
- **Direct-method dispatcher.** It forwards motor and leaf-device orders, received as IoT Hub
  direct methods, to the UART.
- **Command encoder.** The ASP.NET web application turns a button press (`LF`, `LFRF`, `LB`, …)
  into a `MotorDrive` direct method whose payload is `{"command":"…"}`.

The modules follow the program's files.

| module | file | models |
|---|---|---|
| `CString`, `JsonValue`, `Wrappers` | `c_string.dfy`, `json_value.dfy`, `wrappers.dfy` | NUL-terminated strings, the parsed-JSON shape the callbacks inspect, `Option` |
| `SensorFrame` | `sensor_frame.dfy` | `sensorReadingReceiveHandler` in main.c: the receive thread (a class over a 128-character `array`) and the telemetry cache (a class) |
| `Telemetry` | `telemetry.dfy` | one iteration of main.c's main loop: the locked snapshot, the message text and the send decision |
| `DirectMethod` | `direct_method.dfy` | `MotorDriveOrder` and `directMethodCallback` in main.c |
| `IoTHub` | `iot_hub.dfy` | azureiothub.c: the session globals as a class whose methods follow pure transition functions, plus the twin and direct-method callbacks that sit between the SDK and the application |
| `RemoteController` | `remote_controller.dfy` | `DeviceRegistriesController`: the motor-drive encoder and the controller's actions |
| `EndToEnd` | `end_to_end.dfy` | a button's command travels from the web app to the device, and the device writes it to the UART |

**How the state-changing code is modelled.** The source's stateful entities are classes whose
fields the methods update in place:

- the receive buffer and its persistent `readSize`;
- the mutex-protected cache;
- the IoT Hub globals;
- the controller's registry list.

The methods of the receive thread (`SensorReceiver`) and of the IoT Hub session
(`IoTHubSession`) that change the entity's state are each proved equal to a pure transition
function of the old state (`State() == Step(old(State()), …)`), and the properties the source
promises are lemmas about those functions. The receiver's array helpers state their results
directly: the static `FindLastColon`, `MatchesMark` and `ReadInto` tie the array to
`LastColon`, `MarkAt` and `AfterRead`, and `TerminateFrame` writes NUL at `ClosingColon`; `SkipCrLf` returns the frame offset and the
shrunk `readSize`. The cache's `Store` states its new snapshot outright. The controller has no
state function: each of its actions states the fields it writes on the
posted object and on the listed entries, and that every other field stays as it was.

**Inputs instead of calls.** Calls into code the model cannot see become inputs:

- what a `read` delivers;
- the values `sscanf` converts;
- the `%.2f` text of a float;
- the JSON parser;
- the SDK's answers;
- the number of bytes `write` reports;
- the text `db.Invoke` returns.

## Model

| member | source | states |
|---|---|---|
| CString.CStr | azuresphere/AzureSphereArduinoGateway/main.c:235 | what `strlen` and parson read in a buffer: a NUL-free prefix of it, ended by the first NUL or by the buffer's end |
| CString.CStrTerminated | azuresphere/AzureSphereArduinoGateway/main.c:233-243 | a NUL written right after a NUL-free text makes the buffer read back as exactly that text, whatever follows |
| JsonValue.GetString | azuresphere/AzureSphereArduinoGateway/main.c:263 | `json_object_get_string` yields a string exactly when the key is present with a string value, and then that value |
| JsonValue.GetObject | azuresphere/AzureSphereArduinoGateway/azureiothub.c:287 | the member is returned exactly when it is present and is an object |
| SensorFrame.ReadLength | azuresphere/AzureSphereArduinoGateway/main.c:192 | `read` returns -1 exactly on failure and never more than `readSize` |
| SensorFrame.Delivered | azuresphere/AzureSphereArduinoGateway/main.c:192 | the bytes stored are the first `readLen` bytes delivered, none on failure |
| SensorFrame.AfterRead | azuresphere/AzureSphereArduinoGateway/main.c:192 | the buffer keeps its length, starts with the delivered bytes and keeps its stale tail |
| CString.SizeT | azuresphere/AzureSphereArduinoGateway/main.c:194 | conversion to the 32-bit `size_t` lands in its range, is congruent to the input modulo 2^32, and is the identity on that range |
| SensorFrame.AcceptsRead | azuresphere/AzureSphereArduinoGateway/main.c:194 | definition: the length guard as intended, a signed comparison; related to the written one in `GuardsAgreeOnSuccessfulReads` and `ReadErrorPassesGuardAsWritten` |
| SensorFrame.AcceptsReadAsWritten | azuresphere/AzureSphereArduinoGateway/main.c:194 | definition: the length guard as written, `readLen` converted to `size_t` first; its consequences are in `ReadErrorPassesGuardAsWritten` and `StaleFrameRepublishedAsWritten` |
| SensorFrame.GuardsAgreeOnSuccessfulReads | azuresphere/AzureSphereArduinoGateway/main.c:194 | the unsigned guard as written and the signed guard agree on every non-negative read length |
| SensorFrame.ReadErrorPassesGuardAsWritten | azuresphere/AzureSphereArduinoGateway/main.c:192-194 | a failed read (-1) passes the guard as written and is rejected by the signed one |
| SensorFrame.StaleCrLfShrinksReadSizeAsWritten | azuresphere/AzureSphereArduinoGateway/main.c:192-211 | as written, a failed read over a stale CR LF shrinks `readSize` from 8 to 6, below the mark's length |
| SensorFrame.FrameOffset | azuresphere/AzureSphereArduinoGateway/main.c:197-200 | the frame starts at offset 2 exactly when the buffer starts with CR LF, otherwise at 0 |
| SensorFrame.SizeAfterSkip | azuresphere/AzureSphereArduinoGateway/main.c:197-200 | definition: `readSize` shrunk by two after a CR LF; its effect over a run is in `ReadSizeUpdate` and `RunReadSize` |
| SensorFrame.MarkAt | azuresphere/AzureSphereArduinoGateway/main.c:201-206 | definition: the frame starts with `sensors:`; the byte loop is proved equal to it in `SensorReceiver.MatchesMark` |
| SensorFrame.LastColon | azuresphere/AzureSphereArduinoGateway/main.c:208-211 | the backward scan stops on the last `:` at or below its start and never below the mark's `:` |
| SensorFrame.ApplyScan | azuresphere/AzureSphereArduinoGateway/main.c:214 | each of the four locals takes the converted value when `sscanf` got that far, and otherwise keeps its old value |
| SensorFrame.ClosingColon | azuresphere/AzureSphereArduinoGateway/main.c:208-211 | definition: the buffer index the backward scan stops on; its properties are in `ClosingColonIsLast` |
| SensorFrame.ClosingColonIsLast | azuresphere/AzureSphereArduinoGateway/main.c:208-212 | the closing colon lies inside the frame, after the mark, with no `:` after it up to `readSize` |
| SensorFrame.Publish | azuresphere/AzureSphereArduinoGateway/main.c:207-222 | the recognised-frame branch keeps the buffer length and the shrunk `readSize` |
| SensorFrame.Accepted | azuresphere/AzureSphereArduinoGateway/main.c:197-222 | once the guard lets a read through, the CR LF skip, the mark and the recognised frame keep every index inside the buffer: `readSize` stays even, between 8 and 64 |
| SensorFrame.Processed | azuresphere/AzureSphereArduinoGateway/main.c:193-223 | as intended (signed guard), the loop body after the read keeps every index inside the buffer: `readSize` stays even, between 8 and 64 |
| SensorFrame.ProcessedAsWritten | azuresphere/AzureSphereArduinoGateway/main.c:194-223 | as written (unsigned guard), wherever the skip leaves `readSize` at least 8, the loop body keeps the same bounds |
| SensorFrame.StaleFrameRepublishedAsWritten | azuresphere/AzureSphereArduinoGateway/main.c:192-222 | as written, a failed read over a buffer still holding a frame publishes it again, with its values and the flag; as intended the failed read changes nothing |
| SensorFrame.Step | azuresphere/AzureSphereArduinoGateway/main.c:191-224 | one loop iteration, under the intended (signed) guard, keeps the buffer bounds invariant |
| SensorFrame.ShortReadChangesNothing | azuresphere/AzureSphereArduinoGateway/main.c:194 | under the intended (signed) guard, a read not longer than the mark, and a failed read, changes nothing but the buffer bytes |
| SensorFrame.MissingMarkKeepsCache | azuresphere/AzureSphereArduinoGateway/main.c:201-207 | without the `sensors:` mark the cache and the scanned locals are untouched |
| SensorFrame.ReadSizeUpdate | azuresphere/AzureSphereArduinoGateway/main.c:197-200 | `readSize` drops by two exactly when an accepted read starts with CR LF |
| SensorFrame.PublishedFrame | azuresphere/AzureSphereArduinoGateway/main.c:207-222 | the recognised-frame branch writes NUL on exactly the closing `:` and puts the scanned values, with the flag, in the cache |
| SensorFrame.RecognisedFrame | azuresphere/AzureSphereArduinoGateway/main.c:207-222 | for a recognised frame, exactly the closing `:` becomes NUL and the scanned values reach the cache with the flag set |
| SensorFrame.Run | azuresphere/AzureSphereArduinoGateway/main.c:191-224 | any number of iterations keeps the bounds invariant |
| SensorFrame.RunReadSize | azuresphere/AzureSphereArduinoGateway/main.c:187-199 | over any run, `readSize` drops by exactly 2 per accepted CR LF frame, never grows, and never drops below 8 |
| SensorFrame.CrLfFramesExhaustReadSize | azuresphere/AzureSphereArduinoGateway/main.c:187-199 | from the initial 64, at most 28 accepted reads start with CR LF, and `readSize` is 8 exactly after the 28th |
| SensorFrame.StuckAtMarkLength | azuresphere/AzureSphereArduinoGateway/main.c:192-199 | once `readSize` is 8, no later read passes the guard: no frame is recognised again and the cache never changes |
| SensorFrame.RunWithoutFrameKeepsCache | azuresphere/AzureSphereArduinoGateway/main.c:191-224 | a run that recognises no frame leaves the cache as it was |
| SensorFrame.TelemetryCache.Store | azuresphere/AzureSphereArduinoGateway/main.c:215-221 | the locked section writes all four readings and sets the flag |
| SensorFrame.TelemetryCache.constructor | azuresphere/AzureSphereArduinoGateway/main.c:64-69 | the readings start at 0.0 and the flag starts false |
| SensorFrame.SensorReceiver.constructor | azuresphere/AzureSphereArduinoGateway/main.c:183-189 | `readSize` starts at 64 over a 128-character buffer |
| SensorFrame.SensorReceiver.FindLastColon | azuresphere/AzureSphereArduinoGateway/main.c:208-211 | the array loop finds the index `LastColon` specifies |
| SensorFrame.SensorReceiver.ReadInto | azuresphere/AzureSphereArduinoGateway/main.c:192 | `read` leaves the buffer as `AfterRead` says |
| SensorFrame.SensorReceiver.MatchesMark | azuresphere/AzureSphereArduinoGateway/main.c:201-206 | the byte loop reports true exactly when the frame starts with `sensors:` |
| SensorFrame.SensorReceiver.TerminateFrame | azuresphere/AzureSphereArduinoGateway/main.c:208-212 | only the closing colon is overwritten with NUL |
| SensorFrame.SensorReceiver.PublishFrame | azuresphere/AzureSphereArduinoGateway/main.c:207-222 | the new state is `Publish` of the old |
| SensorFrame.SensorReceiver.SkipCrLf | azuresphere/AzureSphereArduinoGateway/main.c:197-200 | returns the frame offset and shrinks `readSize` by the skip |
| SensorFrame.SensorReceiver.ProcessRead | azuresphere/AzureSphereArduinoGateway/main.c:193-223 | the new state is `Processed` of the old |
| SensorFrame.SensorReceiver.ReceiveOnce | azuresphere/AzureSphereArduinoGateway/main.c:191-224 | the new state is `Step` of the old |
| Telemetry.PadDecimal | azuresphere/AzureSphereArduinoGateway/main.c:162-163 | definition: `%0Nd`; its properties are in `PadDecimalRoundTrip` |
| Telemetry.Timestamp | azuresphere/AzureSphereArduinoGateway/main.c:162-163 | definition: the `%04d/%02d/%02dT%02d:%02d:%02d` field of the message; its properties are in `TimestampRoundTrip` |
| Telemetry.PadDecimalRoundTrip | azuresphere/AzureSphereArduinoGateway/main.c:162-163 | `%0Nd` of a number that fits is exactly N digits that read back as the number |
| Telemetry.JoinedTimestampLayout | azuresphere/AzureSphereArduinoGateway/main.c:162-163 | six fields of the widths `%04d/%02d/%02dT%02d:%02d:%02d` make 19 characters with the separators at fixed places |
| Telemetry.ParseJoinedTimestamp | azuresphere/AzureSphereArduinoGateway/main.c:162-163 | six digit fields joined with the timestamp's separators read back as those fields |
| Telemetry.TimestampRoundTrip | azuresphere/AzureSphereArduinoGateway/main.c:147-163 | for every valid local time, the timestamp is 19 characters `YYYY/MM/DDThh:mm:ss` that name the calendar year `tm_year + 1900` and month `tm_mon + 1` |
| Telemetry.TelemetryBody | azuresphere/AzureSphereArduinoGateway/main.c:162-163 | definition: the `sprintf` of the message; its properties are in `BodyIgnoresAltitude` and `BodyLayout` |
| Telemetry.BodyIgnoresAltitude | azuresphere/AzureSphereArduinoGateway/main.c:151-163 | the altitude never reaches the message |
| Telemetry.ComposedBodyLayout | azuresphere/AzureSphereArduinoGateway/main.c:162-163 | the template places each field text at a fixed offset |
| Telemetry.BodyLayout | azuresphere/AzureSphereArduinoGateway/main.c:137-163 | the message carries the three readings and a parseable timestamp at fixed places, and with its NUL it fits the 1024-byte buffer |
| Telemetry.MainLoopIteration | azuresphere/AzureSphereArduinoGateway/main.c:147-165 | a message is composed from the locked snapshot and sent exactly when the flag is set; otherwise the hub state is unchanged |
| IoTHub.ProvisioningResultString | azuresphere/AzureSphereArduinoGateway/azureiothub.c:84-103 | definition: `GetAzureSphereProvisioningResultString`; its properties are in `ProvisioningResultStringRoundTrip` |
| IoTHub.ProvisioningResultStringRoundTrip | azuresphere/AzureSphereArduinoGateway/azureiothub.c:84-103 | each named provisioning result logs a distinct name read back as itself; every other value logs `UNKNOWN_RETURN_VALUE` |
| IoTHub.InitialHub | azuresphere/AzureSphereArduinoGateway/azureiothub.c:18-37 | the initial globals satisfy the session invariant: unauthenticated, no scope id, no timer |
| IoTHub.Provisioned | azuresphere/AzureSphereArduinoGateway/azureiothub.c:111-133 | definition: the provisioning half of a set-up; its properties are in `SetupAuthenticatesOnlyOnSuccess` |
| IoTHub.TimerStarted | azuresphere/AzureSphereArduinoGateway/azureiothub.c:146-157 | definition: the once-only event-loop and timer request; its properties are in `TimerRequestedOnlyBeforeEventLoop` and `ReplayKeepsInvariant` |
| IoTHub.Setup | azuresphere/AzureSphereArduinoGateway/azureiothub.c:109-159 | set-up keeps the session invariant (at most one timer, only with an event loop) and submits nothing |
| IoTHub.ConnectionStatusChanged | azuresphere/AzureSphereArduinoGateway/azureiothub.c:161-171 | the status callback keeps the invariant and submits nothing |
| IoTHub.NetworkChecked | azuresphere/AzureSphereArduinoGateway/azureiothub.c:62-79 | a returned network check keeps the invariant |
| IoTHub.Worked | azuresphere/AzureSphereArduinoGateway/azureiothub.c:203-206 | `DoWork` keeps the invariant |
| IoTHub.TimerTick | azuresphere/AzureSphereArduinoGateway/azureiothub.c:183-207 | the timer handler keeps the invariant and submits nothing |
| IoTHub.Submitted | azuresphere/AzureSphereArduinoGateway/azureiothub.c:214-230 | counting and submitting a message keeps `loopIndex` equal to the number submitted |
| IoTHub.SendingToggled | azuresphere/AzureSphereArduinoGateway/azureiothub.c:231-240 | toggling the sending LED keeps the invariant |
| IoTHub.RetryLedWritten | azuresphere/AzureSphereArduinoGateway/azureiothub.c:242-248 | writing the retry LED keeps the invariant |
| IoTHub.SendMessage | azuresphere/AzureSphereArduinoGateway/azureiothub.c:212-249 | sending keeps the invariant, and the submitted messages only grow |
| IoTHub.SetupAuthenticatesOnlyOnSuccess | azuresphere/AzureSphereArduinoGateway/azureiothub.c:117-133 | set-up authenticates exactly when provisioning succeeds; on failure only the scope id, the call count and the DPS LED change |
| IoTHub.KeepAliveFailureRegistersNothing | azuresphere/AzureSphereArduinoGateway/azureiothub.c:133-144 | a failed keep-alive option leaves the session authenticated, registers no callback and requests no timer |
| IoTHub.TimerRequestedOnlyBeforeEventLoop | azuresphere/AzureSphereArduinoGateway/azureiothub.c:146-157 | once the event loop is set, no set-up requests or creates another timer |
| IoTHub.ConnectionStatusClearsOnlyOnUnauthenticated | azuresphere/AzureSphereArduinoGateway/azureiothub.c:161-171 | `iothubAuthenticated` is cleared exactly by an unauthenticated status |
| IoTHub.TimerTickSetupAndWork | azuresphere/AzureSphereArduinoGateway/azureiothub.c:183-207 | the timer sets the client up exactly when the event was consumed, the network is ready, a scope id is known and the session is unauthenticated; `DoWork` runs exactly when the session is then authenticated |
| IoTHub.SendWhileAuthenticated | azuresphere/AzureSphereArduinoGateway/azureiothub.c:214-241 | authenticated sending submits each created message, counts it, flips the LED when it can be read, and never sets up |
| IoTHub.SendWhileUnauthenticated | azuresphere/AzureSphereArduinoGateway/azureiothub.c:242-248 | unauthenticated sending submits nothing, sets up once, and writes the retry LED low then high |
| IoTHub.Apply | azuresphere/AzureSphereArduinoGateway/azureiothub.c:109-249 | every entry point keeps the invariant, and the submitted messages only grow |
| IoTHub.Replay | azuresphere/AzureSphereArduinoGateway/azureiothub.c:109-249 | definition: the module's entry points applied in any order; its properties are in `ReplayKeepsInvariant` |
| IoTHub.ReplayKeepsInvariant | azuresphere/AzureSphereArduinoGateway/azureiothub.c:146-157 | across any sequence of calls and callbacks, at most one periodic timer is ever created and submissions only grow |
| IoTHub.IoTHubSession.constructor | azuresphere/AzureSphereArduinoGateway/azureiothub.c:18-37 | the globals start as `InitialHub` |
| IoTHub.IoTHubSession.Provision | azuresphere/AzureSphereArduinoGateway/azureiothub.c:111-133 | the new state is `Provisioned` of the old |
| IoTHub.IoTHubSession.StartTimer | azuresphere/AzureSphereArduinoGateway/azureiothub.c:146-157 | the new state is `TimerStarted` of the old |
| IoTHub.IoTHubSession.SetupAzureClient | azuresphere/AzureSphereArduinoGateway/azureiothub.c:109-159 | the new state is `Setup` of the old |
| IoTHub.IoTHubSession.ConnectionStatusCallback | azuresphere/AzureSphereArduinoGateway/azureiothub.c:161-171 | the new state is `ConnectionStatusChanged` of the old |
| IoTHub.IoTHubSession.CheckNetworkStatus | azuresphere/AzureSphereArduinoGateway/azureiothub.c:62-79 | the poll loop stops at the first ready probe, sets the network LED and returns true |
| IoTHub.IoTHubSession.DoWork | azuresphere/AzureSphereArduinoGateway/azureiothub.c:203-206 | the new state is `Worked` of the old |
| IoTHub.IoTHubSession.AzureTimerEventHandler | azuresphere/AzureSphereArduinoGateway/azureiothub.c:183-207 | the new state is `TimerTick` of the old |
| IoTHub.IoTHubSession.SubmitMessage | azuresphere/AzureSphereArduinoGateway/azureiothub.c:214-230 | the new state is `Submitted` of the old |
| IoTHub.IoTHubSession.ToggleSendingLed | azuresphere/AzureSphereArduinoGateway/azureiothub.c:231-240 | the new state is `SendingToggled` of the old |
| IoTHub.IoTHubSession.SetRetryLed | azuresphere/AzureSphereArduinoGateway/azureiothub.c:243-247 | the new state is `RetryLedWritten` of the old |
| IoTHub.IoTHubSession.AzureIoTHubSendMessage | azuresphere/AzureSphereArduinoGateway/azureiothub.c:212-249 | the new state is `SendMessage` of the old |
| IoTHub.DeviceTwinCallback | azuresphere/AzureSphereArduinoGateway/azureiothub.c:264-299 | the application callback is skipped exactly when the terminated payload does not parse |
| IoTHub.DesiredOrRoot | azuresphere/AzureSphereArduinoGateway/azureiothub.c:286-290 | definition: the `desired` object, or the root object when it has none; its properties are in `TwinDeliversDesiredOrWhole` |
| IoTHub.TwinDeliversDesiredOrWhole | azuresphere/AzureSphereArduinoGateway/azureiothub.c:286-292 | a document with a `desired` object delivers just that object; any other object is delivered whole |
| IoTHub.StrNCpy | azuresphere/AzureSphereArduinoGateway/azureiothub.c:338 | `strncpy` writes exactly `n` bytes |
| IoTHub.CellString | azuresphere/AzureSphereArduinoGateway/azureiothub.c:337-346 | definition: what a reader of a partly written buffer sees, nothing when it meets an unwritten byte before a NUL; used by `EmptyPayloadUnterminatedAsWritten` and `PayloadCopyReadsPayload` |
| IoTHub.CellsOfText | azuresphere/AzureSphereArduinoGateway/azureiothub.c:337-346 | a buffer whose bytes are all written and hold a NUL reads as its C string |
| IoTHub.PayloadCopyAsWritten | azuresphere/AzureSphereArduinoGateway/azureiothub.c:337-343 | the copy as written fills `payloadSize + 1` cells |
| IoTHub.EmptyPayloadUnterminatedAsWritten | azuresphere/AzureSphereArduinoGateway/azureiothub.c:337-343 | as written, an empty payload leaves the only byte unwritten, so no string can be read |
| IoTHub.PayloadCopy | azuresphere/AzureSphereArduinoGateway/azureiothub.c:337-343 | the intended copy always ends in a NUL |
| IoTHub.PayloadCopyReadsPayload | azuresphere/AzureSphereArduinoGateway/azureiothub.c:337-346 | the application reads exactly the payload's C string, an empty payload included |
| IoTHub.PayloadCopiesAgreeWhenNonEmpty | azuresphere/AzureSphereArduinoGateway/azureiothub.c:337-343 | for every non-empty payload, the written and the intended copy read the same |
| IoTHub.DeviceMethodCallback | azuresphere/AzureSphereArduinoGateway/azureiothub.c:331-352 | over the intended, always terminated copy of the payload: the SDK gets the application's status, and its body is the stored response, or empty when none was stored |
| DirectMethod.MotorDriveOrderAsWritten | azuresphere/AzureSphereArduinoGateway/main.c:233-243 | a NULL command reaches `strlen(NULL)`; any other command writes its C string with the NUL |
| DirectMethod.MotorDriveOrder | azuresphere/AzureSphereArduinoGateway/main.c:233-243 | a NULL command writes nothing; any other command writes as the code does |
| DirectMethod.MotorDriveBranch | azuresphere/AzureSphereArduinoGateway/main.c:252-280 | definition: the `MotorDrive` branch's parse, re-parse and `command` lookup; its properties are in `MotorDriveCallsOrderIffObject`, `JsonCommandOutcome` and `StringCommandOutcome` |
| DirectMethod.MotorDriveCallsOrderIffObject | azuresphere/AzureSphereArduinoGateway/main.c:255-275 | `MotorDriveOrder` is called exactly when the payload is an object or a string holding one, with that object's `command` |
| DirectMethod.DirectMethodCallbackAsWritten | azuresphere/AzureSphereArduinoGateway/main.c:245-303 | as written, the callback never stores a response |
| DirectMethod.ResponseBytes | azuresphere/AzureSphereArduinoGateway/main.c:247-249 | the intended response is the literal followed by its NUL (`strlen + 1` bytes) |
| DirectMethod.DirectMethodCallback | azuresphere/AzureSphereArduinoGateway/main.c:245-303 | the intended callback always ends on one of its response literals and stores it terminated |
| DirectMethod.MotorDriveOutcome | azuresphere/AzureSphereArduinoGateway/main.c:252-280 | `MotorDrive` answers 200 and writes to the UART exactly when the payload carries a string `command`, then that command terminated |
| DirectMethod.JsonCommandOutcome | azuresphere/AzureSphereArduinoGateway/main.c:252-275 | a payload parsing to an object with a NUL-free string `command` answers 200 with the JSON-style literal and writes exactly the command and one NUL, as written and as intended |
| DirectMethod.StringCommandOutcome | azuresphere/AzureSphereArduinoGateway/main.c:255-266 | a payload parsing to a JSON string that holds an object with a NUL-free string `command` answers 200 with the string-style literal and writes exactly the command and one NUL, as written and as intended |
| DirectMethod.MotorDriveOutcomeAsWritten | azuresphere/AzureSphereArduinoGateway/main.c:252-280 | as written, `MotorDrive` also answers 200, writes only for command objects, and writes the same bytes when the command is a string |
| DirectMethod.OtherMethodsOutcome | azuresphere/AzureSphereArduinoGateway/main.c:281-302 | an unknown method answers 404; `SendOrderToLeafDevice` answers 400 for an empty payload and otherwise writes the payload without terminator |
| DirectMethod.LeafStatusAsWritten | azuresphere/AzureSphereArduinoGateway/main.c:284-293 | as written, the leaf path always answers 404 and reports a failed `write` as "Succeeded" |
| DirectMethod.IntendedLeafStatus | azuresphere/AzureSphereArduinoGateway/main.c:284-293 | as intended, the leaf path answers 200 exactly when bytes were written and 500 otherwise |
| DirectMethod.ResponseNeverDeliveredAsWritten | azuresphere/AzureSphereArduinoGateway/main.c:247-249 | as written, the SDK's response body is empty for every method |
| DirectMethod.IntendedResponseDelivered | azuresphere/AzureSphereArduinoGateway/azureiothub.c:345-351 | as intended, the SDK gets the chosen status and the chosen literal with its NUL |
| DirectMethod.NullCommandAsWritten | azuresphere/AzureSphereArduinoGateway/main.c:263-273 | an object without `command` reaches `strlen(NULL)` as written and writes nothing as intended |
| RemoteController.MotorCommand | services/WebAppSphereRemote/WebAppSphereRemote/Controllers/DeviceRegistriesController.cs:105-136 | definition: the `switch` of `invokeMotorDrive`; its properties are in `MotorCommandIsJoinedWheelOrders` and `MotorCommandIsCommandText` |
| RemoteController.MotorCommandIsJoinedWheelOrders | services/WebAppSphereRemote/WebAppSphereRemote/Controllers/DeviceRegistriesController.cs:103-136 | the `switch` sends each button's wheel codes joined with `;`, forward codes with speed 150 and backward codes without; null or an unknown name sends "" |
| RemoteController.JoinOrdersIsCommandText | services/WebAppSphereRemote/WebAppSphereRemote/Controllers/DeviceRegistriesController.cs:105-136 | wheel orders made of letters, digits and `;`, joined with `;`, are such a text again |
| RemoteController.MotorCommandIsCommandText | services/WebAppSphereRemote/WebAppSphereRemote/Controllers/DeviceRegistriesController.cs:105-136 | every command consists only of upper-case letters, digits and `;` |
| RemoteController.CommandPayload | services/WebAppSphereRemote/WebAppSphereRemote/Controllers/DeviceRegistriesController.cs:137 | the payload is the command wrapped in 14 fixed characters |
| RemoteController.CommandPayloadRoundTrip | services/WebAppSphereRemote/WebAppSphereRemote/Controllers/DeviceRegistriesController.cs:137 | every command can be read back from its payload |
| RemoteController.ParseCommandPayload | services/WebAppSphereRemote/WebAppSphereRemote/Controllers/DeviceRegistriesController.cs:137 | a text read back as a command is exactly that command's payload |
| RemoteController.DeviceRegistriesController.ShowById | services/WebAppSphereRemote/WebAppSphereRemote/Controllers/DeviceRegistriesController.cs:28-41 | `Details`, `Edit` and `Delete` (GET) answer BadRequest exactly for a missing id, show the entry for a listed id, and throw otherwise |
| RemoteController.DeviceRegistriesController.Create | services/WebAppSphereRemote/WebAppSphereRemote/Controllers/DeviceRegistriesController.cs:43-66 | GET shows the form; POST redirects to the index when the model is valid and shows it again otherwise; nothing is modified |
| RemoteController.DeviceRegistriesController.DeleteConfirmed | services/WebAppSphereRemote/WebAppSphereRemote/Controllers/DeviceRegistriesController.cs:205-215 | it always redirects to the index and deletes nothing |
| RemoteController.DeviceRegistriesController.StoreResult | services/WebAppSphereRemote/WebAppSphereRemote/Controllers/DeviceRegistriesController.cs:147-149 | the result is stored on the listed entry at that position and on no other; out-of-range ids throw |
| RemoteController.DeviceRegistriesController.InvokeMotorDrive | services/WebAppSphereRemote/WebAppSphereRemote/Controllers/DeviceRegistriesController.cs:103-141 | the method name becomes "MotorDrive" and the payload carries the button's command; the service is invoked with them |
| RemoteController.DeviceRegistriesController.MotorDrive | services/WebAppSphereRemote/WebAppSphereRemote/Controllers/DeviceRegistriesController.cs:143-150 | the invocation result lands on the listed entry with the posted id and the action redirects to its details; the posted id and device id, and every other field of every listed entry, stay as they were |
| RemoteController.DeviceRegistriesController.TriggerAlarm | services/WebAppSphereRemote/WebAppSphereRemote/Controllers/DeviceRegistriesController.cs:152-163 | method "TriggerAlarm" with `{"msg":"hello"}` is invoked and its result stored on the listed entry with the posted id; the posted id and device id, and every other field of every listed entry, stay as they were |
| RemoteController.DeviceRegistriesController.Invoke | services/WebAppSphereRemote/WebAppSphereRemote/Controllers/DeviceRegistriesController.cs:165-174 | the posted method and payload are invoked as they are and the result is stored on the listed entry with the posted id; the posted object, and every other field of every listed entry, stay as they were |
| EndToEnd.CommandPayloadIsNulFree | services/WebAppSphereRemote/WebAppSphereRemote/Controllers/DeviceRegistriesController.cs:137 | a command payload holds no NUL |
| EndToEnd.CommandTextIsNulFree | services/WebAppSphereRemote/WebAppSphereRemote/Controllers/DeviceRegistriesController.cs:105-136 | a command text holds no NUL |
| EndToEnd.DeviceSeesCommandPayload | azuresphere/AzureSphereArduinoGateway/azureiothub.c:337-346 | the device application is handed exactly the payload the web app built |
| EndToEnd.ParserReadsCommandPayload | services/WebAppSphereRemote/WebAppSphereRemote/Controllers/DeviceRegistriesController.cs:137 | a parser that reads every command payload as its object reads the payload built for a command text as that command's object, because the payload reads back as the command |
| EndToEnd.CommandReachesUart | azuresphere/AzureSphereArduinoGateway/main.c:252-275 | for a parser meeting `ReadsCommandPayloads`, any command text the web app may send is answered 200 with the JSON-style literal and written to the UART with one NUL, as written and as intended |
| EndToEnd.ButtonCommandReachesUart | azuresphere/AzureSphereArduinoGateway/main.c:252-275 | for every button, the device answers 200 and writes exactly the encoded command and a NUL to the UART, both as written and as intended |
| EndToEnd.ButtonAnswer | azuresphere/AzureSphereArduinoGateway/azureiothub.c:331-352 | the device answers the SDK with 200 and, as intended, the acknowledgement literal with its NUL; as written, an empty body |

## Left out

- **SDK and hardware calls.** These calls are not modelled; their outcomes are inputs:
  - the Azure IoT / Azure Sphere SDK calls (`IoTHubDeviceClient_LL_*`, `IoTHubMessage_CreateFromString`, `Networking_IsNetworkingReady`);
  - GPIO and UART file descriptors;
  - `EventLoop_Run` and `WorkOnEventLoop`;
  - `time` and `localtime_r`;
  - `nanosleep` and `sleep`.
- **Destroying the handle.** `IoTHubDeviceClient_LL_Destroy` on a repeated set-up is not modelled. The model keeps no client handle.
- **Threads.** The thread and mutex are not modelled as concurrency. The locked sections of main.c are each one atomic update (`TelemetryCache.Store`) or one atomic read (`Snapshot`).
- **Floating point.** `float` values are kept as bit patterns. `sscanf("%f")` and `sprintf("%.2f")` are inputs.
- **JSON.** The JSON parser (parson) is an input. Only the shape of its result is modelled.
- **Allocation.** `malloc` failure and `abort` in `DeviceTwinCallback` are not modelled.
- **Unmodelled azureiothub.c members.** These do nothing the model inspects beyond logging or forwarding:
  - `ReceiveMessageCallback`;
  - `AzureIoTHub_UpdateTwinReportState`;
  - `ReportedStateCallback`;
  - `AzureIoTHub_SendEventCallback`;
  - `AzureIoTHub_SetRequestHandle`.
- **Unmodelled main.c callbacks.** `deviceTwinCallback` and `c2dMessageCallback` are empty.
- **main.c start-up.** Opening the LEDs and the UART, and the scope id from `argv`, are not modelled.
- **Unused constants.** `AzureIoTPollPeriodsPerTelemetry`, `AzureIoTMinReconnectPeriodSeconds` and `AzureIoTMaxReconnectPeriodSeconds` are declared but never used.
- **loopIndex overflow.** `loopIndex` is an unbounded integer. The overflow of C `int` after 2^31 messages is not modelled; with `waitForSending` at 1 it does not change which messages are submitted.
- SensorFrame.Step: `Step`, `Processed`, `Run`, `SensorReceiver.ProcessRead` and `SensorReceiver.ReceiveOnce` use the intended (signed) length guard. As written, a failed read passes the guard and the stale buffer is processed again: its frame is published once more (`StaleFrameRepublishedAsWritten`), and a stale CR LF over a `readSize` of 8 drives the backward scan out of the buffer (`StaleCrLfShrinksReadSizeAsWritten`). `ProcessedAsWritten` is not stated for that last case.
- IoTHub.IoTHubSession.CheckNetworkStatus: requires that some probe reports the network ready. The source's loop never ends otherwise.
- IoTHub.IoTHubSession.AzureIoTHubSendMessage: carries the same requirement, for the same reason.
- Telemetry.MainLoopIteration: carries the same requirement, for the same reason.
- **Controller actions not modelled.**
  - `Index`, `Send` and `Edit` (POST) are left out: they only call the IoT Hub registry or service;
  - `Dispose` is left out.
  - The data context `AzureIoTHubContext` is not part of this model, except that `Find(id)` indexes the static list (so an id outside it throws and `HttpNotFound` is never reached) and `Invoke` is the `Invoker` input.
- **AzureIoTHubContext.cs and azureiothub.h.** Beyond the above, `AzureIoTHubContext.cs` is not modelled. `azureiothub.h` only declares functions.
- **FunctionLVAMotionDetect.cs.** The Azure Function in this file is not part of this model.
- **Service transport.** The end-to-end lemmas assume the IoT Hub service and the device SDK carry the method name and the payload text unchanged. The JSON parser is required (`ReadsCommandPayloads`) to read every text that `ParseCommandPayload` reads back as a command text `cmd` as the object whose only member `command` is `cmd`. The return path is not modelled: how the service carries the device's answer back to `AzureIoTHubContext.Invoke`, and the `"Status":…,"Payload":…` text `Invoke` builds from it, are left out, so the `Invoker` input is not tied to that answer.

## Findings

| source | as written | input that shows it | evidently intended | confidence | as-written member | corrected member |
|---|---|---|---|---|---|---|
| azuresphere/AzureSphereArduinoGateway/main.c:194 | `readLen > strlen(sensormark)` compares a signed `ssize_t` with an unsigned `size_t`, so a failed `read` (-1) passes the guard and the stale buffer is processed: its frame is published again (`StaleFrameRepublishedAsWritten`) | `readSize` is 8, `read` fails, the buffer still starts with CR LF: `readSize` becomes 6 and the backward scan starts below the mark's `:` | failed and short reads are dropped; `readSize` never drops below 8 | not executed; high for the conversion, medium that a read error happens | SensorFrame.StaleCrLfShrinksReadSizeAsWritten | SensorFrame.RunReadSize |
| azuresphere/AzureSphereArduinoGateway/main.c:248-249 | `response_size = …` and `response = &responseString` assign the callback's own parameters, so the caller's `resSize` stays 0 | any method call: the SDK answers with an empty body | the response literal and its length are stored for the SDK | not executed; high | DirectMethod.ResponseNeverDeliveredAsWritten | DirectMethod.IntendedResponseDelivered |
| azuresphere/AzureSphereArduinoGateway/main.c:285-292 | the leaf path assigns 500/200 to `response`, not `result`, and `order_result` is a `size_t`, so a failed `write` is not 0 | `SendOrderToLeafDevice` with payload `x`: the status is 404, and with `write` returning -1 the reply is "Succeeded" | 200 when bytes were written, 500 otherwise | not executed; high | DirectMethod.LeafStatusAsWritten | DirectMethod.IntendedLeafStatus |
| azuresphere/AzureSphereArduinoGateway/main.c:263-273 | `json_object_get_string` returns NULL for an object without a string `command`, and `MotorDriveOrder` calls `strlen` on it | `MotorDrive` with payload `{}` | nothing is written for a missing command | not executed; high | DirectMethod.NullCommandAsWritten | DirectMethod.MotorDriveOrder |
| azuresphere/AzureSphereArduinoGateway/azureiothub.c:337-343 | the terminator is written only when `payloadSize > 0`, so an empty payload leaves `payloadJson[0]` unwritten | a direct method with an empty payload | the copy is always terminated | not executed; low, since the service may never deliver an empty payload | IoTHub.EmptyPayloadUnterminatedAsWritten | IoTHub.PayloadCopyReadsPayload |
