# build2gether smart home — a Dafny model of its control logic

The system is a small smart-home setup with three programs.

- **ESP32-S3 Matter lamp.** Two threads run on it:
  - the main thread (`QueueMain`) owns the Matter light (`LightDevice`);
  - the panel thread (`ThreadPanel`) keeps a TCP connection to the companion, with a worker task (`TaskTcpClient`) that receives the companion's JSON commands.
  - Messages on the wire are four-member JSON objects built and read by `LampModel`.
- **nRF52840 BLE LED node.** A main task (`MainTask`) owns one LED state. The LED GATT service (`led_service.c`) validates writes and reads. The button and BLE callbacks post to the task's Zephyr message queue through `MessageQueue`.
- **Python companion** on a UniHiker board. `AppHome` routes events between the GUI, the TCP server and the BLE client, gated on each link's state. `LampEspWidget` shows the ESP32 lamp's link and state.

The model gives each thread's handlers as methods of a class over that thread's fields. They run one at a time.

- **Posts to other threads** are appended to outbox sequences. On the nRF side they go into a modelled bounded FIFO.
- **What the platform answers during a handler** is a parameter. This covers sockets, DNS, connect, recv, task creation, cJSON allocation and printing/parsing, LED driver results, and Python's `json.loads`.
- **cJSON** is a pair of functions (`LampWire.CJson`). The predicate `Inverse` says the parser reads back what the printer wrote, for every wire tree (`LampWire.WireTree`: an object of NUL-free strings and `int`-range numbers under NUL-free keys); lemmas that round-trip take it as a hypothesis.
- **Event, source and command codes.** The header that defines them (`AppEvent.h`) is not part of this model. The codes are distinct placeholder constants.
  - `ButtonLampEspOn` is 2, the value the companion sends for `UserButton.LampEspOn`.
  - The BLE connection states come from `BleConst.h`.
  - The Matter cluster and attribute ids are the standard ones.
  - The ATT error codes are those of the Bluetooth Core Specification, Vol 3, Part F, section 3.4.1.1.

What is proved includes:

- **ESP32 panel.** The panel never holds a worker while `Disconnect`. It holds at most one live worker (`Panel.ThreadPanel.Valid`, preserved by every handler).
- **TCP worker.** With the corrected `parse`, every run of the worker posts exactly one failure report, as its last post (`TcpClient.OneEndReportLast`), and the worker's loop computes exactly the posts of its outcome script (`TcpClient.Run`). The worker as written faults on some well-formed chunks before posting that report, and the device's panic handler then halts or resets it (`TcpClient.RunAsWrittenAgrees`; see "Findings").
- **Wire format.** The JSON wire format round-trips (`LampWire.WireRoundTrip`).
- **Lamp.** The lamp's colour-temperature classification has the boundaries the code uses. `setState` and `getState` agree, and four clicks come back to the start.
- **nRF LED node.**
  - The GATT write validator checks its conditions in the order the code does.
  - The message queue drops on full.
  - A write followed by handling the posted message makes a read serve the written value.
- **Python companion.** The routing gates and the widget's acceptance rules are proved.
- **Across programs.**
  - A state the ESP32 panel reports arrives as that same state in the companion's widget (`EndToEnd.StateReportReachesWidget`).
  - The widget's view of the TCP link agrees with `AppHome`'s (`EndToEnd.LinkViewsAgree`).

Two behaviours of the code are easy to misread; the model keeps them as written.
- **Threshold ties.** `getState` compares with `<` (LightDevice.cpp:91,96), so a colour temperature equal to 340 or 1110 mireds lands in the higher-mired bucket: 340 is Yellow and 1110 is Red.
- **The else branch of `handlerNetworkAvailable`** (ThreadPanel.cpp:292-295) only closes the socket and keeps the connection state. The case with consequences is `NetworkAvailable(false)`: the state stays `Connecting` or `Connect` and the worker stays held. A later failure report from that worker then ends in `Disconnect`, because the network flag is down. `NetworkAvailable(true)` while `Connecting` or `Connect` takes the same branch.

## Model

| member | source | states |
|---|---|---|
| Msg.BoolParam | src-esp32s3/main/thread/TaskTcpClient.cpp:115-128 | A C `bool` passed as `uParam` is non-zero exactly when true, and at most 1 |
| Msg.ToUint32 | src-esp32s3/main/thread/TaskTcpClient.cpp:179-181 | The `int` button id stored in the `uint32_t` lParam keeps its value modulo 2^32 and is unchanged when non-negative |
| Msg.ToInt32 | src-esp32s3/main/thread/ThreadPanel.cpp:193-209 | The `uint32_t` state passed to `build` as an `int` converts back to the same `uint32_t`; values below 2^31 are unchanged |
| LampWire.Lookup | src-esp32s3/main/model/LampModel.cpp:92-95 | `cJSON_GetObjectItem` finds a member iff the key is present, and returns the first member with that key |
| LampWire.Item | src-esp32s3/main/model/LampModel.cpp:92-95 | The lookup answers NULL unless the tree is an object holding the key |
| LampWire.ValueInt | src-esp32s3/main/model/LampModel.cpp:94-95 | `valueint` of an in-range number is that number; of anything other than a number or `true` it is 0 |
| LampWire.ValueString | src-esp32s3/main/model/LampModel.cpp:114-121 | `device()`/`event()` give a string exactly when the item exists and is a string |
| LampWire.ReadMembersAsWritten | src-esp32s3/main/model/LampModel.cpp:92-95 | The read as written faults exactly when arg0 or arg1 is missing. Otherwise device and event are the item strings, NULL when an item is missing or not a string, and the args are their `valueint` |
| LampWire.ParseText | src-esp32s3/main/model/LampModel.cpp:81-95 | The corrected reading of a text succeeds exactly when it parses and the read as written neither faults nor yields a NULL device or event. It then yields the fields the read as written yields |
| LampWire.BuildTree | src-esp32s3/main/model/LampModel.cpp:54-63 | `build` makes an object of four members whose keys are pairwise distinct |
| LampWire.ReadMembers | src-esp32s3/main/model/LampModel.cpp:92-95 | The corrected read yields the four fields iff device and event are strings and arg0 and arg1 are present |
| LampWire.BuiltItems | src-esp32s3/main/model/LampModel.cpp:54-63 | Each of the four keys of a built tree finds the value `build` added under it |
| LampWire.BuildThenRead | src-esp32s3/main/model/LampModel.cpp:54-63 | Reading a built tree gives back exactly the device, event, arg0 and arg1 it was built from |
| LampWire.BuiltIsWireTree | src-esp32s3/main/model/LampModel.cpp:54-63 | A message built from NUL-free strings is a wire tree: an object of NUL-free strings and `int`-range numbers under NUL-free keys |
| LampWire.WireRoundTrip | src-esp32s3/main/model/LampModel.cpp:60-63 | With printer and parser inverse on wire trees, parsing the printed build of NUL-free device and event strings returns the same four fields |
| LampWire.WireRoundTripIfInverse | src-esp32s3/main/model/LampModel.cpp:60-63 | The same round trip as an implication: if the printer and parser are inverse on wire trees, the printed build of NUL-free strings parses back to its four fields |
| LampWire.CorrectedReadAgrees | src-esp32s3/main/model/LampModel.cpp:92-95 | Where the corrected read succeeds it yields the fields the code as written reads. Where the code as written dereferences NULL, the corrected read rejects the message |
| LampWire.RequestWithoutArgsFaults | src-esp32s3/main/model/LampModel.cpp:94-95 | A well-formed `req-update` object without arg0/arg1 makes the code as written dereference NULL; the corrected read rejects it |
| LampWire.LampModel.constructor | src-esp32s3/main/model/LampModel.cpp:26-28 | A new model has no root; the field items are left unset |
| LampWire.LampModel.Dispose | src-esp32s3/main/model/LampModel.cpp:30-36 | The destructor frees the root it owns; the fields are untouched |
| LampWire.LampModel.Reset | src-esp32s3/main/model/LampModel.cpp:38-45 | `reset` leaves no root and changes nothing else, so a second reset does nothing |
| LampWire.LampModel.Build | src-esp32s3/main/model/LampModel.cpp:47-67 | Returns true iff the root was created. The items hold device/event with NULL replaced by "". arg0/arg1 are stored. The root owns the built tree. A failed root allocation leaks both string items |
| LampWire.LampModel.Parse | src-esp32s3/main/model/LampModel.cpp:69-98 | The corrected `parse`. NULL text returns false and changes nothing: root, items and args keep their values. Otherwise it succeeds iff the text parses to a complete message, the root then owning the parsed tree. On failure the root and both items are cleared, so `device()` and `event()` answer NULL. No tree leaks |
| LampWire.LampModel.Device | src-esp32s3/main/model/LampModel.cpp:114-117 | `device()` gives a string exactly when the device item exists and is a string, and that string is the item's |
| LampWire.LampModel.Event | src-esp32s3/main/model/LampModel.cpp:118-121 | `event()` gives a string exactly when the event item exists and is a string, and that string is the item's |
| LampWire.LampModel.ParseAsWritten | src-esp32s3/main/model/LampModel.cpp:69-98 | `parse` as written: NULL text changes nothing: root, items and args keep their values. A dangling root is freed a second time, which faults. Otherwise an owned root is freed but left dangling, and a parsed tree is never owned (it leaks). A message missing arg0 or arg1 faults. On success the items and args are those of the parsed tree |
| LampWire.LampModel.Stringnify | src-esp32s3/main/model/LampModel.cpp:100-104 | Returns text iff there is a root (and printing allocates). The text is the printer's output for the root tree |
| LampWire.ParsedChunkLeaks | src-esp32s3/main/thread/TaskTcpClient.cpp:139-146 | With `parse` as written, each received chunk that parses leaves exactly one tree leaked |
| LampWire.ParsedChunkFreed | src-esp32s3/main/thread/TaskTcpClient.cpp:139-146 | With the corrected `parse`, a received chunk leaves nothing leaked |
| Light.Code | src-esp32s3/main/device/LightDevice.h:29-36 | Each lamp state has a code 0..4 that decodes back to it |
| Light.FromCode | src-esp32s3/main/device/LightDevice.h:29-36 | A code names a state exactly when it is 0..4 |
| Light.Classify | src-esp32s3/main/device/LightDevice.cpp:74-106 | Power off gives `Off`. Otherwise below 340 gives White, 340 up to below 1110 Yellow, and 1110 and above Red. Never `On` |
| Light.WrittenTemperature | src-esp32s3/main/device/LightDevice.cpp:123-157 | `setState` writes a temperature exactly for the three colours |
| Light.WrittenTemperatureClassifies | src-esp32s3/main/device/LightDevice.cpp:37-39 | The mired constant written for a colour (160, 520, 1700) classifies back as that colour |
| Light.NextClick | src-esp32s3/main/device/LightDevice.cpp:171-197 | A click never yields `On`, and yields `Off` exactly from Red or On |
| Light.ClicksCycle | src-esp32s3/main/device/LightDevice.cpp:171-197 | From any steady state, four clicks (any multiple of four) return to it |
| Light.ClicksFromOff | src-esp32s3/main/device/LightDevice.cpp:171-197 | From Off, clicks go White, Yellow, Red, Off |
| Light.Route | src-esp32s3/main/device/LightDevice.cpp:238-291 | Each driver setter is chosen exactly for its cluster/attribute pair |
| Light.DriverCall | src-esp32s3/main/device/LightDevice.cpp:314-329 | Only brightness can fail, and it fails exactly when the value is not a nullable uint8 |
| Light.LightDevice.constructor | src-esp32s3/main/device/LightDevice.cpp:65-67 | The light starts at endpoint 0 with the stored attributes and no driver calls |
| Light.LightDevice.Init | src-esp32s3/main/device/LightDevice.cpp:199-214 | `init` records the endpoint, returns `ESP_OK` and writes no attribute |
| Light.LightDevice.GetEndpointId | src-esp32s3/main/device/LightDevice.cpp:69-72 | `getEndpointID` answers the endpoint `init` recorded, 0 before it |
| Light.LightDevice.GetState | src-esp32s3/main/device/LightDevice.cpp:74-106 | `getState` is the classification of the two stored attributes |
| Light.LightDevice.SetState | src-esp32s3/main/device/LightDevice.cpp:108-169 | A colour writes its mired constant, then power on. Off writes power off and On writes power on, leaving the temperature. Afterwards `getState` returns Off/White/Yellow/Red as set, or classifies the old temperature for On |
| Light.LightDevice.ClickButtonOn | src-esp32s3/main/device/LightDevice.cpp:171-197 | One click sets the next state of the cycle and `getState` then reports it |
| Light.LightDevice.ApplySetter | src-esp32s3/main/device/LightDevice.cpp:308-350 | A setter logs its one driver call and returns the driver's result, or returns `ESP_FAIL` for a mistyped brightness; the attribute store is untouched |
| Light.LightDevice.OnAttributeUpdate | src-esp32s3/main/device/LightDevice.cpp:216-292 | An unsupported cluster or attribute changes nothing and returns `ESP_OK`; a supported one applies its setter |
| TcpClient.CString | src-esp32s3/main/thread/TaskTcpClient.cpp:136-141 | A C string read of the buffer is the NUL-free prefix up to the first NUL |
| TcpClient.TerminatedReadsAsData | src-esp32s3/main/thread/TaskTcpClient.cpp:133-136 | Writing `'\0'` after the received bytes makes the buffer read as exactly those bytes (up to any NUL inside them) |
| TcpClient.NulFreeReadsAsItself | src-esp32s3/main/thread/TaskTcpClient.cpp:136-141 | A NUL-free chunk reads as itself |
| TcpClient.ProcessJsonData | src-esp32s3/main/thread/TaskTcpClient.cpp:160-187 | Strings are compared as `strcmp` does, up to the first NUL. A device whose C string is not `lamp-esp` is only reported. An event reading `req-update` posts one `UsrReqUpdate`; one reading `user-click` posts one `UsrClick` with lParam arg0; any other event posts nothing |
| TcpClient.EmbeddedNulSelectsPrefix | src-esp32s3/main/thread/TaskTcpClient.cpp:170-181 | An event string `req-update` or `user-click` followed by a NUL and anything else posts the same command as the bare string |
| TcpClient.ChunkPosts | src-esp32s3/main/thread/TaskTcpClient.cpp:136-147 | With the corrected `parse`, a chunk causes at most one post, and only if it reads as a complete message |
| TcpClient.StreamPosts | src-esp32s3/main/thread/TaskTcpClient.cpp:133-153 | With the corrected `parse`, the receive loop posts at most one message per `recv` |
| TcpClient.RunPosts | src-esp32s3/main/thread/TaskTcpClient.cpp:84-158 | With the corrected `parse`, a run posts one message iff socket, DNS or connect fails, and otherwise at most one per `recv` plus two |
| TcpClient.EndReason | src-esp32s3/main/thread/TaskTcpClient.cpp:84-158 | The end reason is `ErrDisconnect` exactly when the connection was made, and never one of the panel's own start-up failures |
| TcpClient.ChunkOutcomeAsWritten | src-esp32s3/main/thread/TaskTcpClient.cpp:136-185 | As written, a chunk crashes the worker exactly when it parses but the corrected reading rejects it: a missing arg dereferences NULL (LampModel.cpp:94-95), and a NULL device or event reaches `strcmp` (lines 165, 172). Otherwise it posts what the corrected worker posts |
| TcpClient.StreamAsWritten | src-esp32s3/main/thread/TaskTcpClient.cpp:133-153 | The loop as written posts at most one message per `recv` |
| TcpClient.RunAsWritten | src-esp32s3/main/thread/TaskTcpClient.cpp:84-158 | A run as written can crash only after the connection was made, and its first post is the connection report exactly then |
| TcpClient.StreamAsWrittenAgrees | src-esp32s3/main/thread/TaskTcpClient.cpp:133-153 | The loop as written posts only commands before any crash, and when no chunk crashes it posts exactly what the corrected loop posts |
| TcpClient.RunAsWrittenAgrees | src-esp32s3/main/thread/TaskTcpClient.cpp:84-158 | A run as written without a crash posts exactly the corrected run's posts. A run that crashes posts no failure report: it faults first, and the platform's panic handler then halts or resets the device |
| TcpClient.RequestWithoutArgsCrashesWorker | src-esp32s3/main/thread/TaskTcpClient.cpp:133-157 | The chunk `{"device":"lamp-esp","event":"req-update"}` crashes the worker as written after its connection report, where the corrected worker goes on to post `ErrDisconnect` |
| TcpClient.StreamPostsAreCommands | src-esp32s3/main/thread/TaskTcpClient.cpp:133-153 | Everything the receive loop posts is a user command, never a failure report |
| TcpClient.OneEndReportLast | src-esp32s3/main/thread/TaskTcpClient.cpp:84-158 | With the corrected `parse`, every run posts exactly one failure report, last, with the reason of the step that ended it. The first post is `AppTcpConnection(true)` iff socket, DNS and connect all succeeded |
| TcpClient.ClickChunkBecomesCommand | src-esp32s3/main/thread/TaskTcpClient.cpp:139-146 | A printed `user-click` message received as one chunk becomes one `UsrClick` post carrying its arg0 |
| TcpClient.ReceiveChunk | src-esp32s3/main/thread/TaskTcpClient.cpp:134-151 | One loop turn terminates the chunk inside the 128-byte buffer, parses it with a fresh model using the corrected `parse`, and posts what processing it gives |
| TcpClient.Run | src-esp32s3/main/thread/TaskTcpClient.cpp:84-158 | With the corrected `parse`, the worker's posts are exactly those of its outcome script: failure steps, the connected report, the chunks' commands, then the end report. Every received length (at most 126) keeps the terminator write in bounds |
| Panel.StartPosts | src-esp32s3/main/thread/TaskTcpClient.cpp:46-82 | `start` posts one failure report exactly when no worker was created, and otherwise nothing |
| Panel.ThreadPanel.Valid | src-esp32s3/main/thread/ThreadPanel.cpp:80-82 | The state is never `Undefine`. `Disconnect` holds no worker. The live workers are the one the handle names, so at most one |
| Panel.UpdateText | src-esp32s3/main/thread/ThreadPanel.cpp:193-209 | The update text exists exactly when the root and the printed string are allocated. With printer and parser inverse it reads back as `("lamp-esp", "update", 0, state)` |
| Panel.ThreadPanel.ReleaseWorker | src-esp32s3/main/thread/ThreadPanel.cpp:266-272 | The handle is cleared and the held worker, if any, is deleted and no longer live; nothing else changes |
| Panel.ThreadPanel.constructor | src-esp32s3/main/thread/ThreadPanel.cpp:79-91 | Starts network-down, `Disconnect`, socket -1, no worker, satisfying the invariant |
| Panel.ThreadPanel.CloseSocket | src-esp32s3/main/thread/ThreadPanel.cpp:311-321 | Leaves the socket at -1 and closes the old one only if it was not -1, so a second call closes nothing |
| Panel.ThreadPanel.StartTcpClient | src-esp32s3/main/thread/TaskTcpClient.cpp:46-82 | A socket failure posts `ErrCreateSocket` and leaves `_sock` and the handle. Otherwise the socket is stored before spawning, and a spawn failure posts `ErrTaskCreate` |
| Panel.ThreadPanel.HandlerUpdateDevice | src-esp32s3/main/thread/ThreadPanel.cpp:186-231 | A lamp update sends the built `("lamp-esp", "update", 0, state)` text once if the socket is open, and otherwise nothing; no other field changes |
| Panel.ThreadPanel.HandlerUserCommand | src-esp32s3/main/thread/ThreadPanel.cpp:232-248 | `UsrReqUpdate` and `UsrClick` go unchanged to the main thread; other commands change nothing |
| Panel.ThreadPanel.HandlerTcpConnection | src-esp32s3/main/thread/ThreadPanel.cpp:249-281 | Success sets `Connect` only. Failure closes the socket and deletes the held worker. It then restarts a worker in `Connecting` if the network is up, and otherwise ends in `Disconnect` with no worker. The invariant is kept |
| Panel.ThreadPanel.TearDown | src-esp32s3/main/thread/ThreadPanel.cpp:261-272 | The panel ends in `Disconnect` with the socket closed (-1) and no worker held or live. The old socket is logged as closed if it was open, and the old worker as deleted if there was one. Network flag and queues are unchanged |
| Panel.ThreadPanel.ConnectionFailed | src-esp32s3/main/thread/ThreadPanel.cpp:258-279 | After the teardown, with the network up the panel is `Connecting` with a fresh socket and worker and the worker's start posts queued. With the network down it stays `Disconnect` with no socket, no worker and no new post. The invariant is kept |
| Panel.ThreadPanel.HandlerNetworkAvailable | src-esp32s3/main/thread/ThreadPanel.cpp:282-297 | The flag follows the message. Up while `Disconnect` sets `Connecting` and starts one worker. Any other case only closes the socket and keeps the state. The invariant is kept |
| Panel.ThreadPanel.HandlerEventApp | src-esp32s3/main/thread/ThreadPanel.cpp:138-157 | Dispatches device updates, connection results and user commands; other sources change nothing |
| Panel.ThreadPanel.HandlerEventSystem | src-esp32s3/main/thread/ThreadPanel.cpp:158-176 | Handles network availability; the timer and other sources change nothing |
| Panel.ThreadPanel.OnMessage | src-esp32s3/main/thread/ThreadPanel.cpp:121-135 | Runs the handler mapped to the event, keeping the invariant; unmapped events change nothing |
| MainQueue.StateReport | src-esp32s3/main/thread/QueueMain.cpp:275-293 | The report to the panel is an `AppDeviceUpdate` for the lamp whose lParam decodes to the state |
| MainQueue.NetworkReports | src-esp32s3/main/thread/QueueMain.cpp:325-404 | `STA_GOT_IP` reports the network up, `STA_LOST_IP` down, and every other event reports nothing |
| MainQueue.QueueMain.constructor | src-esp32s3/main/thread/QueueMain.cpp:149-152 | The main thread starts with the light's stored attributes, the boot pin and empty outboxes |
| MainQueue.QueueMain.HandlerUserCommand | src-esp32s3/main/thread/QueueMain.cpp:270-304 | `UsrReqUpdate` posts the current state and leaves the lamp. `UsrClick(ButtonLampEspOn)` clicks once and posts the new state. Anything else changes and posts nothing |
| MainQueue.QueueMain.HandlerButtonClick | src-esp32s3/main/thread/QueueMain.cpp:306-319 | A boot-pin click posts `UsrClick(ButtonLampEspOn)` to the thread's own queue without touching the lamp; other pins are dropped |
| MainQueue.QueueMain.OnMessage | src-esp32s3/main/thread/QueueMain.cpp:216-261 | Only `EventApp/AppUserCommand` and `EventSystem/SysButtonClick` act; every other message changes nothing |
| MainQueue.QueueMain.OnPlatformSpecificEvent | src-esp32s3/main/thread/QueueMain.cpp:334-356 | The IP events post their network report to the panel and nothing else changes |
| MainQueue.QueueMain.OnAttributeUpdate | src-esp32s3/main/thread/QueueMain.cpp:491-539 | Only a pre-update on the light's endpoint reaches the light's setters. Every other case returns `ESP_OK` and calls nothing |
| MainQueue.ReportedStatesAreCoarse | src-esp32s3/main/thread/QueueMain.cpp:275-293 | A state the main thread reports is never `On`, so its code is at most 3 |
| Zephyr.KMsgq.constructor | src-nrf52840/src/main.cpp:67-68 | A queue starts empty with the given capacity |
| Zephyr.KMsgq.Put | src-nrf52840/src/lib/arduprof/os/zephyr/MessageQueue.h:65-76 | `k_msgq_put` with `K_NO_WAIT` appends when there is room and returns 0; on a full queue it changes nothing and returns `-ENOMSG` |
| Zephyr.Enqueued | src-nrf52840/src/lib/arduprof/os/zephyr/MessageQueue.h:65-76 | A put appends exactly the message iff there was room, and otherwise leaves the contents; never beyond capacity |
| Zephyr.EnqueuedKeepsPrefix | src-nrf52840/src/lib/arduprof/os/zephyr/MessageQueue.h:65-76 | A run of puts never disturbs what was queued and keeps exactly min(capacity, old + posted) messages |
| Zephyr.EnqueueAll | src-nrf52840/src/lib/arduprof/os/zephyr/MessageQueue.h:65-76 | A run of puts stays within capacity |
| Zephyr.MessageQueue.constructor | src-nrf52840/src/lib/arduprof/os/zephyr/MessageQueue.h:31-33 | The wrapper keeps the queue it was given |
| Zephyr.MessageQueue.Queue | src-nrf52840/src/lib/arduprof/os/zephyr/MessageQueue.h:87-90 | `queue()` answers the queue the wrapper was constructed with |
| Zephyr.MessageQueue.PostMessageTo | src-nrf52840/src/lib/arduprof/os/zephyr/MessageQueue.h:65-76 | Posting to a null queue does nothing; otherwise the message is put, or dropped when the queue is full |
| Zephyr.MessageQueue.PostEventTo | src-nrf52840/src/lib/arduprof/os/zephyr/MessageQueue.h:55-64 | Posts a message whose four fields are the arguments, omitted ones 0 |
| Zephyr.MessageQueue.PostEvent | src-nrf52840/src/lib/arduprof/os/zephyr/MessageQueue.h:78-81 | The queue-less overload posts the four arguments to the wrapper's own queue |
| Zephyr.MessageQueue.PostMessage | src-nrf52840/src/lib/arduprof/os/zephyr/MessageQueue.h:82-85 | The queue-less overload puts the message on the wrapper's own queue |
| LedGatt.OnChrcWrite | src-nrf52840/src/led_service.c:44-79 | Length other than 1 gives invalid-attribute-length, checked before the offset. A non-zero offset gives invalid-offset. With a callback, a byte above 1 gives value-not-allowed. An accepted write returns 1 and calls the callback once with `byte == 1`; without a callback any byte is accepted |
| LedGatt.OnChrcRead | src-nrf52840/src/led_service.c:81-96 | A read serves the callback's state exactly when a read callback is registered, and otherwise 0 bytes |
| LedGatt.LedService.constructor | src-nrf52840/src/led_service.c:33-34 | The module statics start with no callbacks and notifications off |
| LedGatt.LedService.Init | src-nrf52840/src/led_service.c:108-116 | Returns 0 always; NULL leaves the callbacks, and otherwise they are stored |
| LedGatt.LedService.OnCccChanged | src-nrf52840/src/led_service.c:38-42 | Notifications are on exactly when the CCC value is the notify bit value |
| LedGatt.LedService.Notify | src-nrf52840/src/led_service.c:118-121 | While notifications are off it answers `-EACCES` and sends nothing; otherwise it notifies the value and answers what `bt_gatt_notify` answers |
| NrfMain.ToggleRequested | src-nrf52840/src/main.cpp:57-64 | A toggle is requested iff no button is held and the first button's bit changed |
| NrfMain.MainTask.constructor | src-nrf52840/src/main.cpp:73-81 | The task starts with the LED state false, bound to its own empty 32-slot queue |
| NrfMain.MainTask.Start | src-nrf52840/src/main.cpp:93-99 | `start` shows the LED state on the user LED and turns the connection LED off |
| NrfMain.MainTask.GetLedState | src-nrf52840/src/main.cpp:115-118 | Answers the stored LED state |
| NrfMain.MainTask.SetLedState | src-nrf52840/src/main.cpp:119-124 | The state, the user LED and (if enabled) the notification all take the value `b` |
| NrfMain.MainTask.ToggleLedState | src-nrf52840/src/main.cpp:126-129 | Sets the negated state, so two toggles restore it |
| NrfMain.MainTask.HandlerEventUserInput | src-nrf52840/src/main.cpp:132-145 | `ActionToggleLed` toggles; any other action changes nothing |
| NrfMain.MainTask.HandlerEventBleConnection | src-nrf52840/src/main.cpp:146-164 | The connection LED follows connect and disconnect; the LED state never changes |
| NrfMain.MainTask.HandlerEventBleLed | src-nrf52840/src/main.cpp:165-179 | `ActionSetLed` sets the state to `lParam != 0`; other actions change nothing |
| NrfMain.MainTask.OnMessage | src-nrf52840/src/main.cpp:101-112 | Runs the mapped handler; unmapped events change nothing |
| NrfMain.PostMainEvent | src-nrf52840/src/main.cpp:186-190 | Puts the four arguments as one message on the task's queue, dropped if full |
| NrfMain.ButtonChanged | src-nrf52840/src/main.cpp:57-64 | Posts one toggle request exactly when a toggle is requested, and otherwise nothing |
| NrfMain.OnLedChrcWrite | src-nrf52840/src/main.cpp:42-45 | Posts `EventBleLed/ActionSetLed` with lParam the written value |
| NrfMain.SetLedMessage | src-nrf52840/src/main.cpp:42-45 | The write callback's message is `EventBleLed/ActionSetLed` with uParam 0 and lParam 1 for on, 0 for off |
| NrfMain.OnLedChrcRead | src-nrf52840/src/main.cpp:47-50 | The read callback answers the task's current LED state |
| NrfMain.GattWrite | src-nrf52840/src/led_service.c:44-79 | A GATT write returns the validator's answer and posts the set request exactly when the validator calls back |
| NrfMain.GattRead | src-nrf52840/src/main.cpp:47-50 | A GATT read serves the task's current LED state when a read callback is registered |
| NrfMain.WriteThenRead | src-nrf52840/src/main.cpp:42-50 | Writing 0 or 1, then handling the posted message, makes a read serve the written value |
| PyConst.Subscript | src-unihiker/lamp_esp_widget.py:81-90 | `obj[key]` gives the dict entry, and raises for a missing key or a non-dict |
| Home.ConnectionStates | src-unihiker/app_home.py:76-88 | A Tcp update sets only the TCP state and a Ble update only the BLE state; any other type changes neither |
| Home.ConnectionPosts | src-unihiker/app_home.py:88 | Every connection update is forwarded to the GUI with its type and state, without `obj` |
| Home.DataPosts | src-unihiker/app_home.py:90-108 | Data with `obj` None is dropped; otherwise exactly one `DeviceUpdate` with the same `obj` goes to the GUI |
| Home.ReqUpdatePosts | src-unihiker/app_home.py:110-116 | A request goes unchanged to the TCP server for Tcp, onto the BLE queue for Ble, and nowhere otherwise |
| Home.LampEspOnPosts | src-unihiker/app_home.py:123-130 | The command goes, unchanged, to the TCP server iff the TCP state is Connected, and nowhere else |
| Home.LampNrfOnOffPosts | src-unihiker/app_home.py:132-138 | The command goes, unchanged, onto the BLE queue iff the BLE state is Connected, and nowhere else |
| Home.UserPosts | src-unihiker/app_home.py:118-138 | `LampEspOn` goes to the TCP server iff the TCP state is Connected. `LampNrfOnOff` goes onto the BLE queue iff the BLE state is Connected. Unknown buttons go nowhere |
| Home.Route | src-unihiker/app_home.py:45-51 | A command reaches the TCP server or the BLE queue only through those gates; the GUI hears connection updates and non-empty data |
| Home.NextStates | src-unihiker/app_home.py:76-88 | Only a connection update changes a link state |
| Home.AppHome.constructor | src-unihiker/app_home.py:57-58 | Both link states start Disconnected |
| Home.AppHome.Started | src-unihiker/app_home.py:60-68 | `started` tells the GUI both link states |
| Home.AppHome.HandleEventConnection | src-unihiker/app_home.py:76-88 | Updates the named link's state and forwards the update to the GUI |
| Home.AppHome.HandleEventData | src-unihiker/app_home.py:90-108 | Forwards non-empty data to the GUI; the link states are untouched |
| Home.AppHome.HandleEventReqUpdate | src-unihiker/app_home.py:110-116 | Routes the request by link type |
| Home.AppHome.HandleUserLampEspOn | src-unihiker/app_home.py:123-130 | Forwards to the TCP server only while TCP is Connected |
| Home.AppHome.HandleUserLampNrfOnOff | src-unihiker/app_home.py:132-138 | Queues for BLE only while BLE is Connected |
| Home.AppHome.HandleEventUser | src-unihiker/app_home.py:118-121 | Dispatches on the button; unknown buttons forward nothing |
| Home.AppHome.OnAppEvent | src-unihiker/pyprof.py:39-44 | Runs the handler mapped to the event, with the states and posts of `Route` and `NextStates` |
| EspWidget.HasValue | src-unihiker/lamp_esp_widget.py:26-35 | `has_value` accepts booleans and numbers equal to 0..4, rejects other hashable values, and raises for lists and dicts |
| EspWidget.StateOf | src-unihiker/lamp_esp_widget.py:26-35 | `State(v)` is the member whose code equals `v` |
| EspWidget.ConnectedAfter | src-unihiker/lamp_esp_widget.py:66-72 | After a `Tcp` connection update the view is connected iff the state is `Connected`; an update of any other type keeps the view's flag |
| EspWidget.ReportedState | src-unihiker/lamp_esp_widget.py:78-97 | The state changes iff device is 'lamp-esp', event is 'update' and arg1 is a state value; it becomes that state. It raises exactly for a non-dict, a missing key on the path, or an unhashable arg1 |
| EspWidget.UiColor | src-unihiker/lamp_esp_widget.py:128-129 | Blue iff connected, grey otherwise |
| EspWidget.IconImage | src-unihiker/lamp_esp_widget.py:99-101 | The bulb is shown on iff connected and the state is not Off |
| EspWidget.UiText | src-unihiker/lamp_esp_widget.py:103-121 | 'disconnect' iff disconnected; the 'unknown' branch is never reached |
| EspWidget.LampEspWidget.constructor | src-unihiker/lamp_esp_widget.py:41-58 | Starts disconnected with state Off, a grey frame, the bulb off and a blank caption |
| EspWidget.LampEspWidget.UiUpdateIcon | src-unihiker/lamp_esp_widget.py:99-101 | Redraws only the icon, from the two fields |
| EspWidget.LampEspWidget.UiUpdateText | src-unihiker/lamp_esp_widget.py:103-121 | Redraws caption and title from the two fields |
| EspWidget.LampEspWidget.UiUpdateGroup | src-unihiker/lamp_esp_widget.py:123-126 | Redraws frame, icon and caption, so the display shows the fields |
| EspWidget.LampEspWidget.HandleEventConnection | src-unihiker/lamp_esp_widget.py:66-76 | Non-Tcp updates change nothing. A Tcp update sets connected iff the state is Connected, redraws, and asks for the lamp's state only when connected |
| EspWidget.LampEspWidget.HandleEventDevice | src-unihiker/lamp_esp_widget.py:78-97 | The state becomes the reported one exactly as `ReportedState` says, redrawing then; otherwise nothing changes. It raises exactly when `ReportedState` raises |
| EspWidget.LampEspWidget.UiClickIcon | src-unihiker/lamp_esp_widget.py:131-136 | A click posts `UserInput(LampEspOn)` iff connected |
| EspWidget.LampEspWidget.OnAppEvent | src-unihiker/lamp_esp_widget.py:45-48 | Only connection and device updates are handled, keeping the display consistent |
| EndToEnd.UpdateDict | src-esp32s3/main/model/LampModel.cpp:59-63 | The companion decodes the panel's update message as the dict of its four keys |
| EndToEnd.StateReportReachesWidget | src-esp32s3/main/thread/ThreadPanel.cpp:193-209 | A state the panel sends is forwarded by `AppHome` and taken on unchanged by the widget |
| EndToEnd.UpdateTextLoads | src-esp32s3/main/thread/ThreadPanel.cpp:193-209 | When both allocations succeed, the panel produces an update text, and a `json.loads` that reads cJSON's output decodes it to the Python value of the tree `build` made from the state code |
| EndToEnd.WidgetRunAppend | src-unihiker/lamp_esp_widget.py:66-72 | The widget's connection view after two feeds is that of the second after the first |
| EndToEnd.OneEventAgrees | src-unihiker/app_home.py:76-88 | One event keeps the widget's link view and `AppHome`'s TCP state in step |
| EndToEnd.LinkViewsAgree | src-unihiker/lamp_esp_widget.py:66-72 | Fed what `AppHome` forwards, the widget shows the link up iff `AppHome` holds TCP Connected |

## Left out

- Sockets, DNS, `connect`, `recv`, `send`, FreeRTOS task creation and deletion, and Zephyr and Bluetooth stack calls are foreign. The model represents them by their outcomes (parameters) and by ghost records of closed sockets and deleted tasks.
- Concurrency between threads is not modelled. The worker task reads `parent->_sock` and shares the static `_rxBuf` with any later worker. Each thread's handlers run one at a time here, and other threads' queues are outboxes.
- The three-second `vTaskDelay` before a reconnect, the one-second software timer (its handler only logs), and every other timing are not modelled.
- Matter start-up, commissioning, OTA, the console, `printAppInfo` and the app_main.cpp task wiring are not modelled; they are vendor runtime plumbing.
- The `REMAP_TO_RANGE` macros are not part of this model. `Light.DriverCall` logs the raw attribute value passed to each LED driver setter, not the remapped one.
- `led_driver_init` and the attribute store's `set_val` failures are not modelled.
- The Matter stack's write of the new value into the attribute store after a `PRE_UPDATE` callback returns is not modelled: `Light.LightDevice.OnAttributeUpdate` leaves `onOff` and `colorTemp` as they were, whereas on the device a later `getState` reports the written value. `setState`'s default branch is left out because the state type rules it out.
- `QueueMain::onLightPreUpdate`'s `configASSERT` on the private data is not modelled, and neither is the creation of handler-map entries on lookup.
- cJSON internals are not modelled: case-insensitive key lookup, non-integral numbers (cJSON stores doubles), and string allocation failures inside `build`. `stringDelete` and the freeing of printed strings are not modelled, since string memory is not tracked.
- `LampWire.LampModel`'s items are values, not pointers into the tree. `Parse` clears them whenever it frees the root. After `Reset`, `Dispose` or `ParseAsWritten` has freed the root, the stale `_device`/`_event` pointers of the code become, in the model, copies that still read; that use of freed memory is not modelled.
- The receive loop of `TcpClient.ReceiveChunk` and `TcpClient.Run` uses the corrected `parse`, and so do `TcpClient.ChunkPosts`, `StreamPosts` and `RunPosts`. The worker as written is modelled by `TcpClient.RunAsWritten`, which crashes where the code dereferences NULL; `TcpClient.OneEndReportLast` holds only for the corrected worker.
- `TcpClient.RunAsWritten` represents a NULL dereference as the end of the worker's posts (`crashed`). The CPU exception, the panic handler and the resulting halt or reset of the device are not modelled.
- `LampWire.Inverse` and `EndToEnd.ReadsCJson` hold only for wire trees (`LampWire.WireTree`), so `LampWire.WireRoundTrip` needs NUL-free device and event strings; a message with a NUL inside a string cannot be held by cJSON. Outside those hypotheses the abstract `parse` may return strings with an embedded NUL (cJSON decodes `\u0000`); `TcpClient.ProcessJsonData` then reads them as `strcmp` does, by their prefix before the NUL.
- `LampWire.LampModel.Dispose` requires a root that is not dangling, so the second free by the destructor after `build` then `parse` as written is named under "## Findings" but not modelled as a fault; no caller in the code destroys a model in that state.
- `LampWire.LampModel.constructor` leaves the field items unset, as the C constructor leaves them uninitialised. No accessor is modelled as reading them before a `build` or `parse`.
- The `iot_button` wrapper in `ButtonBoot.h` is not modelled. The click it posts (ButtonBoot.h:46) carries the pin in the message's `uParam`, and the model starts from that message.
- The blocking variants of `k_msgq_put` are not modelled, since every caller uses `K_NO_WAIT`. `MessageBus::messageLoopForever` is not modelled; `NrfMain.WriteThenRead` hands the task the message at the head of its queue.
- `bt_gatt_attr_read`, `bt_gatt_notify`, the GATT table and the `dk_*` LED and button drivers are foreign. LED writes are logged, and a notification is recorded as the value.
- Python's `json.loads` is a parameter of `EndToEnd` (`ReadsCJson`). The TCP server component (app_server_tcp.py), the GUI forwarding (app_gui.py), the info widget and the BLE client are not part of this model.
- Python floating point is not modelled. Numbers are exact reals, which preserves the only things the core uses: `==` and hash equality between `int`, `float` and `bool`.
- `pollIpcMessage` and the circuits event loop are not modelled. An exception raised in a handler is reported as `raised`; the loop logs it.

## Findings

| source | as written | input that shows it | evidently intended | confidence | as-written member | corrected member |
|---|---|---|---|---|---|---|
| src-esp32s3/main/model/LampModel.cpp:92-95 | `parse` takes `->valueint` of the `arg0` and `arg1` lookups without checking for NULL. `processJsonData` (TaskTcpClient.cpp:164-172) then `strcmp`s possibly NULL device and event strings | the chunk `{"device":"lamp-esp","event":"req-update"}` | a well-formed message missing a member is rejected like a malformed one | not executed | LampWire.ReadMembersAsWritten, LampWire.RequestWithoutArgsFaults | LampWire.ReadMembers, LampWire.CorrectedReadAgrees |
| src-esp32s3/main/model/LampModel.cpp:76-97 | `parse` frees the old root without clearing `_root` and never stores the new tree in `_root`, so the destructor cannot free it. The receive loop (TaskTcpClient.cpp:139-146) parses every chunk with a fresh model, leaking one tree per chunk. On a model that already freed its root, a further `parse` (for example `build`, then `parse` twice) frees that root again, and so does the destructor (LampModel.cpp:30-36) after `build` then `parse` | any chunk that parses, e.g. `{"device":"lamp-esp","event":"req-update","arg0":0,"arg1":0}` | the model owns the parsed tree and its destructor frees it | not executed | LampWire.LampModel.ParseAsWritten, LampWire.ParsedChunkLeaks | LampWire.LampModel.Parse, LampWire.ParsedChunkFreed |
| src-esp32s3/main/thread/TaskTcpClient.cpp:133-157 | A chunk that crashes `parse` or `processJsonData` (lines 165, 172 `strcmp` a NULL device or event) makes the worker load near address 0 before the disconnect report at line 157. On the ESP32-S3 that raises a LoadProhibited exception, and ESP-IDF's panic handler halts or restarts the whole chip (by default it prints and reboots) | the chunk `{"device":"lamp-esp","event":"req-update"}`, or `{"device":1,"event":"req-update","arg0":0,"arg1":0}` | every run ends with exactly one failure report | not executed | TcpClient.RunAsWritten, TcpClient.RequestWithoutArgsCrashesWorker | TcpClient.Run, TcpClient.OneEndReportLast |
