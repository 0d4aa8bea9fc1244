# Colorlight Z6 controller — a Dafny model

This project models the core of the PepperDash Essentials plugin that drives a
Colorlight Z6 LED receiver card over a byte transport. Two revisions of the
controller are modelled: the current one (`src/`) and the older plugin
(`pepperdash-generic-colorlightZ6-epi/`). Four parts are covered:

- **Command frames** (`frames.dfy`, module `Frames`). These are the binary frames for brightness (opcode 0x21), preset recall (0x74) and show on/off (0x11), plus the two heartbeat frames.
  - The frames are sequences of bytes, with bytes modelled as the integers 0..255.
  - The device id is a `ushort` and goes big-endian into offsets 6 and 7.
  - A reference decoder, `ParseCommand`, states what a frame means. The encoder is proved against it: the round trip holds up to the 8-bit preset truncation, and the encoding is injective.
- **Heartbeat timer slot** (`heartbeat.dfy`, module `Heartbeat`). This is the nullable `_heartbeatTimer` field as a pure state machine, `Notify`, with counts of the timers created and stopped. The source dereferences null on a disconnect when no timer exists. That case is modelled as the `NullReference` fault: it is exposed, not excluded by a precondition.
- **Send gate** (`z6controller.dfy`, `src/` only). The transport (`transport.dfy`) is a class with a `connected` flag, a count of `Connect` calls and a ghost trace of the frames handed to it. `SendGate` is the specification of the controller's `SendBytes`.
- **Inbound queue** (`z6controller.dfy`, `src/` only). Received frames are queued in a `seq` field, and `ProcessQueue` drains it in FIFO order with a loop. The spawn guard is modelled as written (`Receive`): it returns early whenever `_queueProcess` is null or finished. The field's only assignment (line 64) sits behind that return. The field starts null, so that assignment is never reached and no drain worker is ever started (`NoWorkerEverStarts`).

Each controller revision is a class, with `modifies` clauses on its methods. Every sending method states the transport's whole new state. The current revision states it through `SendGate`. The older revision appends one frame to the trace and touches neither `connected` nor the connect count.

Inputs from the environment become parameters:
- `linkUp` is whether a `Connect()` call brings the link up.
- `floatBytes` is the platform's float-to-bytes conversion of the brightness fraction. Each controller is given it at construction.

## Model

| member | source | states |
|---|---|---|
| Frames.BrightnessHeader | src/ColorlightZ6Controller.cs:176-180 | The header is exactly `21 00 14 00 00 00 idH idL FF 00 00 00 00 00 00 00`, 16 bytes, carrying the id at offsets 6-7. |
| Frames.BrightnessFrame | src/ColorlightZ6Controller.cs:176-182 | The brightness frame is 20 bytes: the 16-byte header, then exactly the 4 payload bytes. The id reads back from offsets 6-7. |
| Frames.RecallPresetFrame | src/ColorlightZ6Controller.cs:191-195 | The preset frame is 17 bytes and starts `74 00 11`. Offsets 6-7 are id / 256 and id % 256. The last byte is preset mod 256. |
| Frames.ShowOnFrame | src/ColorlightZ6Controller.cs:204-208 | The show-on frame is 17 bytes with opcode 0x11, carries the id, and ends in 0x01. |
| Frames.ShowOffFrame | src/ColorlightZ6Controller.cs:217-221 | The show-off frame is 17 bytes with opcode 0x11, carries the id, and ends in 0x00. |
| Frames.Encode | src/ColorlightZ6Controller.cs:176-221 | Every command frame is at least 17 bytes and carries the id big-endian at offsets 6 and 7, whatever the command. |
| Frames.HeartbeatFrame | src/ColorlightZ6Controller.cs:164 | The current heartbeat is exactly the 8 bytes `99 99 00 08 00 00 00 00`; byte 3 equals the frame length. |
| Frames.LegacyHeartbeatFrame | pepperdash-generic-colorlightZ6-epi/pepperdash-generic-colorlightZ6-epi/ColorlightZ6Controller.cs:97 | The older heartbeat is exactly the 4 bytes `99 99 04 00`; byte 2 equals the frame length. |
| Frames.ParseEncodeRoundTrip | src/ColorlightZ6Controller.cs:176-221 | Decoding any command frame gives back its id and command. The only loss is the preset's high byte. |
| Frames.EncodeInjective | src/ColorlightZ6Controller.cs:176-221 | Two commands share a frame only if they have the same id and the same on-wire command. |
| Frames.PresetTruncation | src/ColorlightZ6Controller.cs:193-195 | Presets p and p - 256 produce identical frames: truncation above 255 is silent. |
| Frames.ShowFramesDifferOnlyInFlag | src/ColorlightZ6Controller.cs:204-221 | The on and off frames have the same length (17) and the same first 16 bytes. They end in 0x01 and 0x00, and so differ. |
| Frames.OnlyIdBytesDependOnId | src/ColorlightZ6Controller.cs:178 | For a fixed command, frames built for two ids agree at every offset except 6 and 7. |
| Frames.HeartbeatsAreNotCommands | src/ColorlightZ6Controller.cs:164 | Neither heartbeat frame decodes as a command frame. |
| Frames.WireExamples | src/ColorlightZ6Controller.cs:176-221 | Id 0x1234 appears as `12 34` at offsets 6-7 of every frame. Preset 300 is sent as 0x2C. The id 0x00AB brightness header is byte-exact. |
| Heartbeat.Notify | src/ColorlightZ6Controller.cs:67-82 | Connect creates a timer only if there is none; a held timer is left unchanged. Disconnect stops and clears a held timer. Disconnect with no timer faults (null dereference), and no other case does. At most one timer is ever live. |
| Heartbeat.RunCharacterisation | src/ColorlightZ6Controller.cs:67-82 | A run of notifications faults exactly when a disconnect arrives with no timer held. After a clean run, a timer is held exactly when the last event was a connect. |
| Heartbeat.ConnectIsIdempotent | src/ColorlightZ6Controller.cs:71-74 | Two connects in a row leave the same single timer as one connect. |
| Transport.Link.Connect | src/ColorlightZ6Controller.cs:154 | A `Connect()` call is counted, and the link's state becomes the environment's outcome. |
| Transport.Link.SendBytes | src/ColorlightZ6Controller.cs:158 | A frame handed to the transport joins the sent trace, whatever the connection state. |
| Z6Controller.SendGate | src/ColorlightZ6Controller.cs:143-159 | A null command changes nothing: no connect, no send. Otherwise `Connect` is called exactly when the link is down, and the command is appended to the trace regardless. |
| Z6Controller.SendAllKeepsOrder | src/ColorlightZ6Controller.cs:143-159 | Over a series of commands, the socket may go down or come up on its own before any of them, for example when an earlier `Connect()` completes. Commands reach the transport in issue order, none lost or added. Each costs at most one reconnect attempt. No reconnect happens at all exactly when the link is up just before every command. |
| Z6Controller.Receive | src/ColorlightZ6Controller.cs:56-65 | A received frame is appended to the queue. The state of `_queueProcess` (null, running or finished) is unchanged. The early return at line 62 fires on a null or finished thread, so from those states no worker is started. From a running thread, line 64 replaces it with a new one, counted in `workersStarted`. |
| Z6Controller.NoWorkerEverStarts | src/ColorlightZ6Controller.cs:56-65 | From a null `_queueProcess`, the state construction leaves, no run of received frames starts a drain worker. The field stays null, and the queue holds every received frame in order, never drained. |
| Z6Controller.ColorlightZ6Controller.constructor | src/ColorlightZ6Controller.cs:26-44 | A new controller holds no timer and has created none, with an empty queue and no worker thread. |
| Z6Controller.ColorlightZ6Controller.Initialize | src/ColorlightZ6Controller.cs:46-54 | Initialize makes one `Connect` call. |
| Z6Controller.ColorlightZ6Controller.SendBytes | src/ColorlightZ6Controller.cs:143-159 | The transport moves exactly as `SendGate` says. |
| Z6Controller.ColorlightZ6Controller.SendHeartbeat | src/ColorlightZ6Controller.cs:161-166 | The 8-byte heartbeat goes through the same gate. |
| Z6Controller.ColorlightZ6Controller.SetBrightness | src/ColorlightZ6Controller.cs:168-187 | The brightness frame for the id and the converted level goes through the gate. |
| Z6Controller.ColorlightZ6Controller.RecallPreset | src/ColorlightZ6Controller.cs:189-200 | The preset frame goes through the gate. |
| Z6Controller.ColorlightZ6Controller.SetShowOn | src/ColorlightZ6Controller.cs:202-213 | The show-on frame goes through the gate. |
| Z6Controller.ColorlightZ6Controller.SetShowOff | src/ColorlightZ6Controller.cs:215-226 | The show-off frame goes through the gate. |
| Z6Controller.ColorlightZ6Controller.SocketOnConnectionChange | src/ColorlightZ6Controller.cs:67-82 | The timer slot moves as `Heartbeat.Notify` says, and the invariant (at most one live timer) is kept. On the null dereference the fault is returned and nothing changes. |
| Z6Controller.ColorlightZ6Controller.HeartbeatTimerElapsed | src/ColorlightZ6Controller.cs:73 | A held timer's period sends one heartbeat through the gate. With no timer, nothing is sent. |
| Z6Controller.ColorlightZ6Controller.CommunicationsOnBytesReceived | src/ColorlightZ6Controller.cs:56-65 | The queue, `_queueProcess` and the worker count move as `Receive` says. |
| Z6Controller.ColorlightZ6Controller.ProcessQueue | src/ColorlightZ6Controller.cs:89-98 | The loop ends with the queue empty, having consumed the frames in the order they were enqueued. |
| LegacyZ6Controller.ColorlightZ6Controller.constructor | pepperdash-generic-colorlightZ6-epi/pepperdash-generic-colorlightZ6-epi/ColorlightZ6Controller.cs:45-64 | A new controller holds no timer and has created none. |
| LegacyZ6Controller.ColorlightZ6Controller.CustomActivate | pepperdash-generic-colorlightZ6-epi/pepperdash-generic-colorlightZ6-epi/ColorlightZ6Controller.cs:71-76 | Activation makes one `Connect` call and returns true. |
| LegacyZ6Controller.ColorlightZ6Controller.CommunicationsOnBytesReceived | pepperdash-generic-colorlightZ6-epi/pepperdash-generic-colorlightZ6-epi/ColorlightZ6Controller.cs:66-69 | Received bytes change no controller or transport state. |
| LegacyZ6Controller.ColorlightZ6Controller.SendHeartbeat | pepperdash-generic-colorlightZ6-epi/pepperdash-generic-colorlightZ6-epi/ColorlightZ6Controller.cs:95-98 | Appends exactly the 4-byte heartbeat to the trace. It makes no null check and no `Connect` call. |
| LegacyZ6Controller.ColorlightZ6Controller.SetBrightness | pepperdash-generic-colorlightZ6-epi/pepperdash-generic-colorlightZ6-epi/ColorlightZ6Controller.cs:119-138 | Appends exactly the brightness frame; no reconnect. |
| LegacyZ6Controller.ColorlightZ6Controller.RecallPreset | pepperdash-generic-colorlightZ6-epi/pepperdash-generic-colorlightZ6-epi/ColorlightZ6Controller.cs:140-150 | Appends exactly the preset frame; no reconnect. |
| LegacyZ6Controller.ColorlightZ6Controller.SetShowOn | pepperdash-generic-colorlightZ6-epi/pepperdash-generic-colorlightZ6-epi/ColorlightZ6Controller.cs:152-161 | Appends exactly the show-on frame, whatever its ignored argument. |
| LegacyZ6Controller.ColorlightZ6Controller.SetShowOff | pepperdash-generic-colorlightZ6-epi/pepperdash-generic-colorlightZ6-epi/ColorlightZ6Controller.cs:163-172 | Appends exactly the show-off frame, whatever its ignored argument. |
| LegacyZ6Controller.ColorlightZ6Controller.SocketOnConnectionChange | pepperdash-generic-colorlightZ6-epi/pepperdash-generic-colorlightZ6-epi/ColorlightZ6Controller.cs:78-93 | Same transitions as the current revision: at most one timer, cleared on disconnect, and a fault on a disconnect with no timer. |
| LegacyZ6Controller.ColorlightZ6Controller.HeartbeatTimerElapsed | pepperdash-generic-colorlightZ6-epi/pepperdash-generic-colorlightZ6-epi/ColorlightZ6Controller.cs:84 | A held timer's period appends one 4-byte heartbeat. With no timer, nothing is sent. |

## Left out

- Brightness float conversion (`brightness / 65535.0f`, `Math.Round(..., 1)` in the current revision, `BitConverter.GetBytes(float)`): floating point and platform byte order. The four bytes are an opaque `floatBytes` function given to each controller, so the model does not say they decode back to level / 65535.
- `GenericCommunicationMonitor` (poll and warning/error thresholds), `StatusChange` and `FireUpdate`: library code whose logic is not part of this model.
- `CTimer` timing (due time 0, 1000 ms period) and disposal, `Thread` and `CrestronQueue` concurrency. A timer period is the explicit `HeartbeatTimerElapsed` step. The queue is an unbounded sequence, because what `Enqueue` does at capacity 100 is defined by the library. The drain is sequential.
- Socket state and its notifications are two separate inputs. `SocketOnConnectionChange` takes the notification's `isConnected` as a parameter and does not set `Link.connected`, even though both reflect the same socket. Inside a series of sends, the socket going down or coming up on its own (a closed socket, a `Connect()` that completes later, a transport that reconnects by itself) is the explicit `linkBefore` input of `SendAll`. In a single `SendBytes` call, a `Connect()` reports its outcome at once (`linkUp`).
- `Transport.Link.Connect`: whether a connect succeeds is a parameter. What the socket does with a sent frame while disconnected is not modelled; the trace records that the frame was handed over.
- `LinkToApi`, both join maps, both factories, `LoadPlugin`/`BuildDevice`, JSON deserialisation of the configuration: framework wiring. From the configuration only the id's `ushort` range is kept.
- All logging (`LogInformation`, `LogVerbose`, `Debug.Console`, `BitConverter.ToString`). The `processed` trace of `ProcessQueue` stands for the frames it logs.
- `Z6Controller.ColorlightZ6Controller.CommunicationsOnBytesReceived`: the new thread the guard would start while a worker is running is only counted (`workersStarted`); what it would run concurrently is not modelled.
