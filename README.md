# Realtime voice client and relay: a Dafny model

The repository is a browser voice assistant for the OpenAI Realtime API. It has two files:

- `app.js`, the page. It opens a WebRTC session, keeps a set of module-level flags and
  handles, and reacts to transport events, timer ticks, inbound messages and user actions.
- `server.js`, a small Node server. It has two parts:
  - `/realtime/calls` checks a WebRTC offer, posts it upstream and remembers the session;
  - `/ws-proxy` relays a browser WebSocket to an upstream realtime socket.

This project models the bookkeeping of both. It is split into modules:

- **`Session`** (`session.dfy`): the page, as the class `Client`.
  - Its record `globals` holds the module-level variables of `app.js`.
  - Its field `effects` lists the platform calls made, in order: timers, `close`, `restartIce`, `alert`, `send`, `stop`.
  - It owns the bounded diagnostics log and the playback queue.
  - Each event handler, timer callback and user action is a method. Its postcondition ties the new state, the new calls and the new log records to pure functions of the old state.
- **`SessionState`** (`session_state.dfy`): those pure functions.
  - The state `disconnect` leaves behind and the calls it makes.
  - The connection-state and ICE-state rules.
  - Prompt selection.
  - The control socket's message rules.
- **`Diagnostics`**: the 200-entry log, as a class with a ghost history.
- **`Playback`**: the audio FIFO with its `isPlaying` flag, as a class with ghost `pushed`/`fates` sequences.
- **`Interruption`**: the 100 ms microphone detector and `cancelAIResponse`.
- **`Turns`**: the responding flag over whole traces of events.
- **`Dispatch`**: `handleWebSocketMessage`.
- **`Health`**: the 5 s monitor, the 30 s keep-alive and the 10 s outgoing-track check.
- **`Notes`**: log records as tags.
- **`Protocol`**: the wire-level states and messages.
- **`Js`**: the JavaScript string operations the code relies on:
  - truthiness and `||` defaults;
  - `trim` with ECMAScript's whitespace set;
  - `replace` of the first occurrence;
  - `String(n)`.
- **`Calls`** (`calls.dfy`): the `/realtime/calls` endpoint, as the class `CallsEndpoint` over its `sessionConfigs` map.
- **`Relay`** (`relay.dfy`): one `/ws-proxy` connection, as the class `RelayConnection` with its closure variables and every upstream socket it created.

Platform inputs are passed in as parameters:

- the textarea value;
- the time string a log record is stamped with;
- `Date.now()`;
- the analyser's frequency bins;
- the upstream `fetch` result;
- whether a socket is OPEN;
- the states of the sender and receiver tracks the keep-alive reads.

## Model

| member | source | states |
|---|---|---|
| Diagnostics.Recent | app.js:1347-1352 | the log's contents are the last min(200, n) records of the whole history, in insertion order |
| Diagnostics.RecentAppend | app.js:1347-1352 | trimming after every push equals trimming the whole history once: an evicted record never comes back |
| Diagnostics.DiagnosticsLog.constructor | app.js:1339-1352 | the log starts empty, with an empty history |
| Diagnostics.DiagnosticsLog.Append | app.js:1347-1352 | after a push the log holds at most 200 records, ends with the new one, and is still the window of the full history |
| Notes.Stamp | app.js:1340-1345 | every record of one event carries that event's timestamp, with its level and message |
| Notes.StampAppend | app.js:1339-1352 | stamping two batches one after the other is stamping their concatenation |
| Notes.StampExtend | app.js:1339-1352 | two batches logged within one event extend the history as one batch |
| Js.OrElse | app.js:797 | `o \|\| fallback` on a string gives `o` when it is non-empty, else the fallback, and is non-empty when the fallback is |
| Js.Trim | app.js:797 | trimming gives the empty string exactly for a blank string, and otherwise neither starts nor ends with whitespace |
| Js.TrimIsSlice | app.js:797 | `trim` keeps one contiguous slice of its argument and removes only whitespace on either side of it |
| Js.TrimIdempotent | app.js:797 | trimming twice is trimming once |
| Js.IndexOf | server.js:184 | finds the first index at which the pattern occurs, and `None` only when it occurs nowhere |
| Js.ReplaceFirst | server.js:184 | a string pattern is replaced at its first occurrence only; without an occurrence the string is unchanged |
| Js.Decimal | server.js:245 | `String(n)` is a non-empty string of decimal digits denoting `n`, with no leading zero except for `0` itself |
| Playback.ShiftKeepsOrder | app.js:1228 | moving the head of the queue to the fates keeps "everything that left, then the queue, is what was pushed" |
| Playback.DroppedAllAppend | app.js:1248-1252 | dropping one more segment extends the dropped run by that segment |
| Playback.ClearedAllSegments | app.js:322 | the segments cleared by `disconnect` are exactly the queue, in order |
| Playback.PlaybackQueue.constructor | app.js:1187-1189 | the queue starts empty and nothing plays |
| Playback.PlaybackQueue.PlayChunk | app.js:1191-1217 | a decoded chunk is appended; if nothing was playing, the queue head starts at once; a chunk the context cannot build is dropped; the FIFO invariant and "one playing at most" are kept |
| Playback.PlaybackQueue.OnEnded | app.js:1243-1245 | when the playing segment ends, the next queued segment starts; with an empty queue `isPlaying` becomes false |
| Playback.PlaybackQueue.PlayNext | app.js:1219-1253 | an empty queue clears `isPlaying`; otherwise the head is shifted and started; without an audio context every queued segment is dropped in order and `isPlaying` ends false |
| Playback.PlaybackQueue.DropAll | app.js:1248-1252 | the catch-and-retry loop drops every queued segment in queue order and leaves nothing playing |
| Playback.PlaybackQueue.Clear | app.js:322 | `disconnect` empties the queue, records each queued segment as cleared, and leaves `isPlaying` and the playing segment alone |
| Interruption.SumBins | app.js:859-862 | the summing loop computes the sum of the bins |
| Interruption.DivAbove | app.js:863 | comparing an average with a threshold is comparing the sum with threshold × count |
| Interruption.ClassifyIsAverage | app.js:863-874 | the integer comparisons decide "speech" exactly when the float average exceeds 30 and "silence" exactly when it is below 20 |
| Interruption.Tick | app.js:851-876 | an inactive tick changes nothing; a cancel is sent exactly on loud input while responding over an OPEN socket; speech is recorded exactly on loud input while responding; quiet input counts up and anything else resets the counter |
| Turns.AfterAppend | app.js:851-876 | running a trace in two parts is running it whole |
| Turns.StaysQuiet | app.js:1130-1149 | a cleared responding flag stays clear until `response.created` or `response.output_item.added` |
| Turns.CancelClears | app.js:885-894 | a cancel happens only while responding and clears the flag; only a re-arming event sets it |
| Turns.NoSecondCancel | app.js:866-870 | between any two `response.cancel` sends of a run there is a `response.created` or `response.output_item.added`: at most one cancel per responding period |
| Dispatch.ErrorText | app.js:1153 | the alert text is the error's message, else its code, else a bare non-empty error string; an error object with neither gives `[object Object]`; no error or an empty string gives the fixed unknown-error text; never empty |
| Dispatch.HandleMessage | app.js:1076-1183 | `response.created` and `response.output_item.added` set the flag and keep the transcript, `response.done` clears the flag and the transcript, `response.cancelled` clears the flag and keeps the transcript, a truthy `response.audio_transcript.done` resets the transcript, a truthy delta is appended, an error changes neither field and alerts exactly when it is not a `server_error`; each lifecycle event logs its own record; `session.created`, `session.updated`, input transcriptions, audio deltas, unknown types and a non-text or unparsable payload change nothing |
| Dispatch.DeltaStep | app.js:1104-1116 | one delta event appends its text when truthy and changes nothing else |
| Dispatch.DeltasKeepFlag | app.js:1104-1116 | a run of delta events leaves the responding flag alone |
| Dispatch.DeltasAccumulate | app.js:1104-1116 | after a run of delta events the transcript is the old one followed by every truthy delta, in order |
| Health.MonitorVerdict | app.js:586-612 | a healthy link is left alone, a warning is given exactly when either side is `disconnected`, ICE is restarted exactly when the connection is `disconnected`, and the session is torn down exactly when either side is `failed` |
| Health.VerdictLogs | app.js:597-608 | the monitor warns exactly on a broken link and logs the teardown error exactly on a failure |
| Health.EndedFindings | app.js:644-661 | one error per ended track, and none exactly when no track has ended |
| Health.EndedFindingsSnoc | app.js:644-650 | checking one more track adds a finding exactly when it has ended |
| Health.EndedFindingsCount | app.js:644-661 | counted independently, there are exactly as many findings as ended tracks |
| Health.KeepAliveReportsEveryEnded | app.js:639-665 | on a connected link the keep-alive reports every ended sender and receiver track once and nothing else |
| Health.KeepAliveFindings | app.js:639-665 | the keep-alive logs nothing unless both states are `connected`; then it logs exactly one error per ended sender track, followed by one per ended receiver track |
| Health.OutgoingFinding | app.js:976-988 | the record logged, in the check's order: missing track, else ended track (errors), else muted, else disabled (warnings); a healthy live track gives nothing |
| SessionState.ClearIfSet | app.js:248-269 | a timer is cleared exactly when its handle is set |
| SessionState.ClearIfSetHolds | app.js:248-269 | the only call for a handle is clearing that same handle |
| SessionState.Disconnected | app.js:243-324 | after `disconnect` every session flag is down, the four timer handles, the peer connection, the stream and the audio context are null, the queues and transcript are empty, and the control socket, mute flag, prompt and socket parameters are kept |
| SessionState.TeardownClearsSetTimers | app.js:248-269 | `disconnect` clears exactly the timers whose handles are set |
| SessionState.TeardownClosesMedia | app.js:276-304 | the peer connection and the audio context are closed exactly when they exist; the DataChannel is never closed, since its test runs after `peerConnection` is nulled |
| SessionState.TeardownStopsEveryTrack | app.js:292-295 | every microphone track is stopped; no track outside the microphone stream is stopped by these calls (the `<audio>` elements' tracks are left out) |
| SessionState.TornDownIsFixed | app.js:243-324 | on a torn-down state `disconnect` changes nothing and calls nothing |
| SessionState.DisconnectIdempotent | app.js:243-324 | a second `disconnect` leaves the state unchanged and makes no platform call |
| SessionState.ChosenPrompt | app.js:797 | the prompt is the trimmed textarea when it is not blank, else the current prompt |
| SessionState.PromptToSend | app.js:785-804 | a prompt is sent exactly over an open DataChannel when the textarea or the current prompt is not blank; what is sent is never blank |
| SessionState.Preview | app.js:463 | a preview is a prefix of the prompt: the whole of a prompt of at most 50 characters, else exactly its first 50 |
| SessionState.PromptLogs | app.js:785-822 | a prompt that is not sent logs one warning; a sent one logs no warning and reports success |
| SessionState.OpeningPrompt | app.js:460 | the opening prompt is the trimmed textarea, else the current prompt, else the built-in prompt, and is never empty |
| SessionState.IceLogs | app.js:420-435 | the ICE state is always logged first; the warning is given exactly on `failed` or `disconnected`, the restart note exactly on `failed`, and the success record exactly on `connected` |
| SessionState.AfterConnState | app.js:381-416 | `connected` connects the session; `failed`, or `closed` while connected, tears everything down; a teardown leaves exactly `disconnect`'s state; `connected` records the state and sets `isConnected` and `sessionReady`; otherwise the peer records its new state and every other global is unchanged; `disconnected` alone keeps the session connected |
| SessionState.ConnEffects | app.js:397-416 | `disconnected` schedules exactly the 5 s recovery check; a teardown makes exactly `disconnect`'s calls from the old state, preceded by the alert on `failed`; other states call nothing |
| SessionState.StateChangeLogs | app.js:383-412 | the handler logs the new connection state first; then the success record and "connected" status exactly on `connected`, the warning and "reconnecting" status exactly on `disconnected`, the error exactly on `failed`, the closed note exactly on `closed` |
| SessionState.ConnLogs | app.js:383-416 | the "disconnected" status is logged exactly when the handler tears down, "connected" exactly on `connected`, and "reconnecting" exactly on `disconnected`; the success, warning, error and closed records each appear exactly in their own state |
| SessionState.ReplyType | app.js:708 | an unrecognised reply logs its own type when truthy and `unknown` otherwise; the type is never empty |
| SessionState.ActedOn | app.js:703-743 | a message is acted on exactly when it is a text or a decoded buffer that parsed; a Blob is skipped |
| SessionState.FrameLogs | app.js:705-743 | the handler's error is logged exactly for a frame that does not parse |
| SessionState.ReplyLogs | app.js:724-738 | only `disconnected` and `error` replies log; an error reply logs its non-empty string, `[object Object]` for an error object relayed from upstream, or else the unknown-error text |
| SessionState.StopCalls | app.js:293 | stopping a stream stops each of its tracks once, in order |
| SessionState.WithEnabled | app.js:1403-1405 | every track's `enabled` is set to the given value, and nothing else changes |
| SessionState.LogAll | app.js:1339-1352 | a batch of `logDiagnostic` calls extends the history by the stamped batch and keeps the log valid |
| Session.EndedStep | app.js:644-650 | checking one more track appends one stamped error exactly when it has ended |
| Session.LogEnded | app.js:644-661 | the forEach over senders or receivers logs exactly the ended-track findings |
| Session.Client.constructor | app.js:2-25 | the page starts with every handle null, every flag down, an empty log and an empty playback queue |
| Session.Client.MediaAcquired | app.js:195-202 | connecting shows "connecting", creates the audio context and keeps the microphone stream |
| Session.Client.TrackEnded | app.js:957-959 | the platform ends a microphone track, which stays ended; an ended first track is reported as an error by the next 10 s check |
| Session.Client.TrackMuteChanged | app.js:961-967 | the platform mutes or unmutes a microphone track; a muted live first track is reported as a warning by the next 10 s check |
| Session.Client.ChannelStateChanged | app.js:785-792 | the platform moves the stored DataChannel to a new state; once it is not open, it is not open for `sendSystemPrompt` |
| Session.Client.PeerCreated | app.js:332-334 | a new peer connection starts in state `new` with its `oai-events` DataChannel connecting |
| Session.Client.SetupMicrophoneActivityDetection | app.js:833-881 | with a stream the analyser is attached and the 100 ms interval starts from a zero counter; without one only the audio context is created |
| Session.Client.Disconnect | app.js:243-324 | the new state is the torn-down state, the calls are exactly the teardown calls, one "disconnected" status is logged, and the playback queue is emptied without touching `isPlaying` |
| Session.Client.StopTimers | app.js:244-274 | flags down and every set timer cleared, in source order |
| Session.Client.ReleaseMedia | app.js:276-304 | the peer connection, tracks and audio context are released in order, and each handle is nulled |
| Session.Client.OnConnectionStateChange | app.js:381-416 | the globals, calls and logs are those of `AfterConnState`, `ConnEffects` and `ConnLogs`; without a peer connection nothing changes |
| Session.Client.RecoveryCheck | app.js:401-406 | after 5 s the session is torn down exactly when the peer connection still exists and is still `disconnected` |
| Session.Client.OnIceStateChange | app.js:420-435 | ICE records its state and is restarted only on `failed`, never on `disconnected` |
| Session.Client.OnDataChannelOpen | app.js:456-489 | the opening prompt becomes the current prompt and exactly one full `session.update` is sent: the prompt, Opus both ways, audio only, server VAD |
| Session.Client.StartConnectionMonitoring | app.js:558-616 | the monitor interval is replaced (the old one cleared when set), then the keep-alive is started |
| Session.Client.StartKeepAlive | app.js:620-625 | the keep-alive interval is replaced, the old one cleared when set |
| Session.Client.MonitorTick | app.js:564-613 | the tick cancels itself without a peer connection or a connected session; otherwise it acts as `MonitorVerdict` says: warn, restart ICE, or stop itself and tear down |
| Session.Client.StopMonitor | app.js:566-569 | the monitor interval is cleared when set and its handle nulled |
| Session.Client.KeepAliveTick | app.js:625-668 | the keep-alive cancels itself like the monitor, otherwise only logs ended tracks, and never changes the session |
| Session.Client.StopKeepAlive | app.js:627-630 | the keep-alive interval is cleared when set and its handle nulled |
| Session.Client.FirstTrack | app.js:975-981 | the check reads the first microphone track exactly when the stream has one |
| Session.Client.StartOutgoingAudioMonitoring | app.js:942-991 | only for a connected session with a stream: no track logs an error, otherwise the 10 s check starts and its handle is not kept |
| Session.Client.OutgoingCheckTick | app.js:970-989 | for a connected session with a stream, the finding about the first track's current state is logged, if any; that state changes through `TrackEnded`, `TrackMuteChanged` and `ToggleMute` |
| Session.Client.DetectorTick | app.js:851-876 | the globals and calls are those of `Tick` on the measured loudness; the counter, flag and speech time change as it says |
| Session.Client.CancelAIResponse | app.js:885-894 | `response.cancel` is sent only over an OPEN socket while responding, and then the flag is cleared |
| Session.Client.HandleWebSocketMessage | app.js:1076-1183 | the flag, transcript, alert and logs are those of `HandleMessage`; nothing else changes |
| Session.Client.ToggleMute | app.js:1398-1406 | the mute flag flips and every track's `enabled` becomes the negation of the new flag |
| Session.Client.OnPromptInput | app.js:164-166 | typing sets the current prompt |
| Session.Client.SendSystemPrompt | app.js:785-827 | exactly one instructions-only `session.update` is sent when `PromptToSend` allows it, and the sent prompt becomes the current one; otherwise only a warning is logged |
| Session.Client.SetupWebSocketForControl | app.js:676-688 | the socket parameters are kept, the attempt counter reset and a new control socket is connecting |
| Session.Client.OnControlSocketOpen | app.js:690-701 | on open the counter is reset and one `connect` request carries the key, model and voice |
| Session.Client.OnControlSocketMessage | app.js:703-743 | `connected` sends the prompt at once, `session.created` schedules it 500 ms later, `disconnected` and `error` only log; nothing reconnects or tears down |
| Session.Client.OnControlSocketError | app.js:746-749 | an error is only logged |
| Session.Client.OnControlSocketClose | app.js:751-772 | code 1000 is only noted; any other code is warned about with its reason or the fixed text, plus the non-critical note while connected |
| Calls.ApiKey | server.js:184 | a header gives a key, and no header gives none; the first `Bearer ` is removed wherever it stands |
| Calls.BearerRoundTrip | server.js:184 | a header `Bearer <key>` gives back exactly `<key>` |
| Calls.ChosenInstructions | server.js:214-217 | instructions are included exactly when not blank, and untrimmed |
| Calls.BuildConfig | server.js:185-217 | the config always carries the model and voice (defaulted when falsy) and server VAD, and carries the instructions exactly when they are not blank |
| Calls.Rejection | server.js:184-194 | a missing key is rejected with 401 before a missing SDP offer is rejected with 400, and a request goes on exactly when it has both |
| Calls.SessionKey | server.js:245 | the session id header when non-empty, else the decimal time, and never empty |
| Calls.CallsEndpoint.constructor | server.js:30 | the server starts with no remembered session |
| Calls.CallsEndpoint.PostCalls | server.js:180-254 | a rejected request never reaches upstream and changes nothing; a network failure gives 500; an upstream refusal passes its status and text through; an answer is relayed as `application/sdp` and its key, model and voice are remembered under the session key |
| Relay.RelayConnection.constructor | server.js:33-39 | a connection starts with no upstream and every variable null |
| Relay.RelayConnection.OnClientMessage | server.js:41-165 | `connect` sets the variables with defaults; without a key it answers one error and opens nothing, otherwise a new upstream becomes current; any other message is forwarded unchanged exactly when the current upstream is OPEN; an unreadable one gets an error reply |
| Relay.RelayConnection.OnUpstreamOpen | server.js:68-71 | a connecting upstream opens and the browser is told `connected` |
| Relay.RelayConnection.OnUpstreamMessage | server.js:73-103 | upstream data reaches the browser unchanged, only while the browser socket is OPEN |
| Relay.RelayConnection.OnUpstreamError | server.js:105-118 | the error's message, or a fixed text, is reported while the browser socket is OPEN |
| Relay.RelayConnection.OnUpstreamClose | server.js:120-130 | the upstream is closed and, while the browser socket is OPEN, one `disconnected` report carries the code and the reason or a fixed text |
| Relay.RelayConnection.OnClientClose | server.js:167-172 | the current upstream, if any, is closed and no longer OPEN; earlier ones are left alone |
| Relay.AfterClose | server.js:170 | `close()` moves an open or connecting socket to closing and leaves a closed one closed |

## Left out

- Media and network I/O are not modelled. This covers `getUserMedia`, device enumeration, the SDP offer/answer exchange (app.js:511-555), `fetch`, `setSinkId`, audio elements and the tracks `disconnect` stops on them (app.js:306-312), the visualizer, DOM updates, `alert` text and console output. Their outcomes are parameters, and the calls the client makes are entries of `effects`.
- Log messages are tags in `Notes.Note`, not the Russian texts. Timestamps are parameters.
- Timers are not run. Every `setInterval`/`setTimeout` callback is one method, called as one atomic step. `PlayNext` also folds the `await setSinkId` between the shift and `start()` (app.js:1233-1239) into that one step, so no other event can run in between.
- `Date.now()`, `toLocaleTimeString` and `Math.random` are not modelled. The first two are parameters. The random console logging (app.js:577-583, server.js:143-145) only writes to the console, so it is dropped.
- The PCM16 to Float32 conversion, `convertFloat32ToPCM16` and the base64 helpers are not modelled. Audio segments are opaque sample sequences, and a chunk that fails to build is a `contextAvailable = false` or empty-sample call.
- `startAudioActivityMonitoring`, `reconnectWebSocket` and the track `onended`/`onmute`/`onunmute` handlers only log. The track state changes they react to are modelled by `TrackEnded` and `TrackMuteChanged`, but their log lines are not. Only the log line that `reconnectWebSocket` adds in `OnControlSocketClose` is kept.
- The button-state code in `connect` and `setupWebRTCConnection` is not modelled, nor are the input checks at app.js:182-192 or the error path at app.js:234-239. Only their state updates are modelled, as `MediaAcquired`, `PeerCreated` and `SetupMicrophoneActivityDetection`.
- The DataChannel branch of `disconnect` (app.js:283-290) is never taken, so it is not modelled. `TeardownClosesMedia` states that the DataChannel is never closed.
- Session.Client.Disconnect: it states the order of the platform calls and of the log records separately. It does not state their interleaving with each other.
- Session.Client.OnControlSocketOpen: it sends the parameters kept in the globals. The source sends the values captured by the closure, which differ only when a newer control socket has been set up since; that case is not modelled.
- Errors thrown by `new WebSocket(...)`, or by `send` on a closed socket or channel, are not modelled. The same goes for the catch blocks that only log them (app.js:769-772, 823-826).
- Calls.CallsEndpoint.PostCalls: the request fields are strings or absent. A non-string `instructions`, which makes `trim` throw into the 500 path, is not modelled. The multipart encoding and the upstream URL and headers are represented by `UpstreamCall`.
- Relay.RelayConnection.OnUpstreamMessage: the binary/text distinction only affects console output and the frame type, so data is passed through as one string.
- Relay.RelayConnection.OnClientMessage: the upstream URL and headers are represented by the key, model and voice of `Upstream`. The inner `try` of the forwarding branch (server.js:134-151) only writes to the console and cannot affect the result. The console warning on a dropped message is not modelled.
- The DataChannel `message` listener (app.js:491-505) only logs, so it is not modelled. On the WebRTC path the response lifecycle events arrive there, are only logged, and never set `isAIResponding`. Only the unwired `HandleWebSocketMessage` sets it.
- SessionState.Preview: it counts 50 characters (Unicode scalar values). `substring(0, 50)` (app.js:463, 806) counts UTF-16 code units, so for a prompt with characters outside the Basic Multilingual Plane the source's preview is shorter and may end in half a surrogate pair. Dafny strings cannot hold a lone surrogate.
- Session.Client.DetectorTick: `silenceCount` is one global of the model. In app.js:847 it is local to each `setupMicrophoneActivityDetection` call, which runs once per live track (app.js:337-345), and an earlier interval that was never cleared keeps its own counter. The model has one detector interval and one counter.
- Session.Client.KeepAliveTick: the sender and receiver track states are parameters. Nothing ties the senders to the microphone tracks in `mediaStream`, although each live one is added with `addTrack` (app.js:340).
- Interruption: the analyser's smoothing and FFT are not modelled. The bins are a parameter.
- Session.Client.HandleWebSocketMessage, SetupWebSocketForControl and PlaybackQueue.PlayChunk are modelled as stand-alone handlers. In `app.js` they are never wired to an event.
