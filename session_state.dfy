/** The browser client's module-level state (the globals at the top of app.js), the calls it
    makes into the platform, and the pure rules its event handlers follow: teardown, prompt
    selection, the ICE handler's reaction and the control socket's replies. */
module SessionState {
  import opened Js
  import opened Protocol
  import opened Diagnostics
  import opened Notes
  import opened Playback

  /** Timer handles: browsers hand out positive integers, so a set handle is always truthy. */
  type TimerId = n: nat | n > 0 witness 1

  const RecoveryDelayMs: nat := 5000
  const MonitorPeriodMs: nat := 5000
  const KeepAlivePeriodMs: nat := 30000
  const DetectorPeriodMs: nat := 100
  const OutgoingCheckPeriodMs: nat := 10000
  const PromptResendDelayMs: nat := 500
  /** WebSocket close code of a normal closure. */
  const NormalClosure: int := 1000
  const NoReason := "нет причины"
  const DefaultPrompt := "Ты голосовой ассистент, говоришь по-русски, отвечаешь коротко и дружелюбно."
  /** Prompts are previewed in the log by their first 50 characters. */
  const PreviewLength: nat := 50

  /** A microphone `MediaStreamTrack` as the page reads it: `toggleMute` writes `enabled`. */
  datatype Track = Track(enabled: bool, muted: bool, readyState: TrackState)

  /** The `RTCPeerConnection` as the handlers see it: its two states, as last reported by the
      platform, and the `oai-events` DataChannel stored on it (absent once set to null). */
  datatype Peer = Peer(connectionState: ConnState, iceState: IceState, dataChannel: Option<ReadyState>)

  /** The callbacks that timers run. */
  datatype Task = MonitorTask | KeepAliveTask | DetectorTask | OutgoingCheckTask | RecoveryCheckTask | PromptResendTask

  /** Calls the client makes into the platform, in order. */
  datatype Effect =
    | Repeat(id: TimerId, task: Task, periodMs: nat)   // setInterval
    | Schedule(task: Task, delayMs: nat)               // setTimeout whose handle is not kept
    | ClearTimer(timer: TimerId)                       // clearTimeout / clearInterval
    | ClosePeer
    | CloseChannel
    | CloseAudioContext
    | RestartIce
    | Alert(notice: Notice)
    | ChannelSend(sent: ControlMessage)                // dataChannel.send(JSON)
    | SocketSend(message: ControlMessage)              // websocket.send(JSON)
    | StopTrack(index: nat)                            // mediaStream.getTracks()[index].stop()

  /** The client's globals. Handles are `None` when null; `audioContext` and `audioAnalyser`
      only record whether the handle is set. `audioBufferQueue` and `isPlaying` are kept by
      the playback queue, the diagnostics log by its own object. */
  datatype State = State(
    mediaStream: Option<seq<Track>>,
    audioContext: bool,
    websocket: Option<ReadyState>,
    peerConnection: Option<Peer>,
    audioQueue: seq<AudioSegment>,
    isConnected: bool,
    isMuted: bool,
    currentSystemPrompt: string,
    currentTranscript: string,
    initTimeout: Option<TimerId>,
    sessionReady: bool,
    connectionMonitorInterval: Option<TimerId>,
    keepAliveInterval: Option<TimerId>,
    isAIResponding: bool,
    lastUserSpeechTime: int,
    websocketReconnectAttempts: nat,
    websocketApiKey: Option<string>,
    websocketModel: Option<string>,
    websocketVoice: Option<string>,
    audioAnalyser: bool,
    microphoneActivityCheckInterval: Option<TimerId>,
    silenceCount: nat)

  /** The globals as the page loads them. */
  const Initial := State(None, false, None, None, [], false, false, "", "", None, false, None, None,
                         false, 0, 0, None, None, None, false, None, 0)

  /** `if (h) { clearX(h); }`. */
  function ClearIfSet(h: Option<TimerId>): (r: seq<Effect>)
    ensures r == [] <==> h.None?
    ensures h.Some? ==> r == [ClearTimer(h.value)]
  {
    match h
    case None => []
    case Some(id) => [ClearTimer(id)]
  }

  lemma ClearIfSetHolds(h: Option<TimerId>, id: TimerId)
    ensures ClearTimer(id) in ClearIfSet(h) <==> h == Some(id)
    ensures ClosePeer !in ClearIfSet(h) && CloseAudioContext !in ClearIfSet(h) && CloseChannel !in ClearIfSet(h)
  {
  }

  /** What `disconnect` guarantees: session flags down, every timer handle, the peer
      connection, the microphone stream and the audio context released, queues and the
      running transcript empty. */
  predicate TornDown(s: State) {
    && !s.isConnected && !s.sessionReady && !s.isAIResponding
    && s.initTimeout.None? && s.connectionMonitorInterval.None? && s.keepAliveInterval.None?
    && s.microphoneActivityCheckInterval.None? && !s.audioAnalyser
    && s.peerConnection.None? && s.mediaStream.None? && !s.audioContext
    && s.audioQueue == [] && s.currentTranscript == ""
    && s.lastUserSpeechTime == 0
  }

  /** The state `disconnect` leaves behind. */
  function Disconnected(s: State): (r: State)
    ensures TornDown(r)
    // what teardown leaves alone: the control socket and its parameters, the mute flag,
    // the prompt and the detector's counter
    ensures r.websocket == s.websocket && r.isMuted == s.isMuted
    ensures r.currentSystemPrompt == s.currentSystemPrompt
    ensures r.websocketApiKey == s.websocketApiKey && r.websocketModel == s.websocketModel
    ensures r.websocketVoice == s.websocketVoice && r.websocketReconnectAttempts == s.websocketReconnectAttempts
    ensures r.silenceCount == s.silenceCount
  {
    s.(isConnected := false, sessionReady := false, initTimeout := None,
       connectionMonitorInterval := None, keepAliveInterval := None,
       microphoneActivityCheckInterval := None, audioAnalyser := false,
       isAIResponding := false, lastUserSpeechTime := 0, peerConnection := None,
       mediaStream := None, audioContext := false, audioQueue := [], currentTranscript := "")
  }

  /** The timers `disconnect` clears, in order: every one that is set. */
  function TimerCalls(s: State): seq<Effect> {
    ClearIfSet(s.initTimeout) + ClearIfSet(s.connectionMonitorInterval) + ClearIfSet(s.keepAliveInterval)
    + ClearIfSet(s.microphoneActivityCheckInterval)
  }

  /** The media `disconnect` releases, in order: the peer connection, every microphone track,
      the audio context. The DataChannel is never closed: `peerConnection` is already null
      when it is tested. */
  function MediaCalls(s: State): seq<Effect> {
    (if s.peerConnection.Some? then [ClosePeer] else [])
    + (if s.mediaStream.Some? then StopCalls(|s.mediaStream.value|) else [])
    + (if s.audioContext then [CloseAudioContext] else [])
  }

  /** The platform calls `disconnect` makes from state `s`, in order. */
  function TeardownCalls(s: State): seq<Effect> {
    TimerCalls(s) + MediaCalls(s)
  }

  /** `disconnect` clears exactly the timers that are set. */
  lemma TeardownClearsSetTimers(s: State)
    ensures forall id: TimerId :: ClearTimer(id) in TeardownCalls(s) <==>
      s.initTimeout == Some(id) || s.connectionMonitorInterval == Some(id)
      || s.keepAliveInterval == Some(id) || s.microphoneActivityCheckInterval == Some(id)
  {
    var stops := if s.mediaStream.Some? then StopCalls(|s.mediaStream.value|) else [];
    assert forall e :: e in stops ==> e.StopTrack?;
    assert forall e :: e in MediaCalls(s) ==> !e.ClearTimer?;
    forall id: TimerId
      ensures ClearTimer(id) in TimerCalls(s) <==>
        s.initTimeout == Some(id) || s.connectionMonitorInterval == Some(id)
        || s.keepAliveInterval == Some(id) || s.microphoneActivityCheckInterval == Some(id)
    {
      ClearIfSetHolds(s.initTimeout, id);
      ClearIfSetHolds(s.connectionMonitorInterval, id);
      ClearIfSetHolds(s.keepAliveInterval, id);
      ClearIfSetHolds(s.microphoneActivityCheckInterval, id);
    }
  }

  /** `disconnect` closes the peer connection and the audio context exactly when they
      exist, and never closes the DataChannel. */
  lemma TeardownClosesMedia(s: State)
    ensures ClosePeer in TeardownCalls(s) <==> s.peerConnection.Some?
    ensures CloseAudioContext in TeardownCalls(s) <==> s.audioContext
    ensures CloseChannel !in TeardownCalls(s)
  {
    var stops := if s.mediaStream.Some? then StopCalls(|s.mediaStream.value|) else [];
    assert forall e :: e in stops ==> e.StopTrack?;
    assert forall e :: e in TimerCalls(s) ==> e.ClearTimer?;
  }

  /** `disconnect` stops every microphone track, and nothing else. */
  lemma TeardownStopsEveryTrack(s: State)
    ensures forall i: nat :: StopTrack(i) in TeardownCalls(s) <==> s.mediaStream.Some? && i < |s.mediaStream.value|
  {
    var stops := if s.mediaStream.Some? then StopCalls(|s.mediaStream.value|) else [];
    assert forall e :: e in TimerCalls(s) ==> e.ClearTimer?;
    forall i: nat | s.mediaStream.Some? && i < |s.mediaStream.value|
      ensures StopTrack(i) in stops
    {
      assert stops[i] == StopTrack(i);
    }
  }

  /** A torn-down state is a fixed point of `disconnect`, which then calls nothing. */
  lemma TornDownIsFixed(s: State)
    requires TornDown(s)
    ensures Disconnected(s) == s && TeardownCalls(s) == []
  {
  }

  /** `disconnect` is idempotent: a second call changes no state and makes no platform call. */
  lemma DisconnectIdempotent(s: State)
    ensures Disconnected(Disconnected(s)) == Disconnected(s)
    ensures TeardownCalls(Disconnected(s)) == []
  {
    TornDownIsFixed(Disconnected(s));
  }

  /** The DataChannel state `sendSystemPrompt` reads through `peerConnection.dataChannel`. */
  function ChannelOf(peer: Option<Peer>): Option<ReadyState> {
    if peer.Some? then peer.value.dataChannel else None
  }

  /** `textarea.value.trim() || currentSystemPrompt`. */
  function ChosenPrompt(textarea: string, current: string): (r: string)
    ensures !IsBlank(textarea) ==> r == Trim(textarea)
    ensures IsBlank(textarea) ==> r == current
  {
    OrElse(Some(Trim(textarea)), current)
  }

  /** The prompt `sendSystemPrompt` sends: only over an open DataChannel, and only when the
      chosen prompt is not blank. */
  function PromptToSend(channel: Option<ReadyState>, textarea: string, current: string): (r: Option<string>)
    ensures r.Some? <==> channel == Some(Open) && !(IsBlank(textarea) && IsBlank(current))
    ensures r.Some? ==> !IsBlank(r.value)
    ensures r.Some? && !IsBlank(textarea) ==> r.value == Trim(textarea)
    ensures r.Some? && IsBlank(textarea) ==> r.value == current
  {
    if channel != Some(Open) then None
    else
      var p := ChosenPrompt(textarea, current);
      TrimIdempotent(textarea);
      if IsBlank(p) then None else Some(p)
  }

  /** The first characters of a prompt, as the log previews it. */
  function Preview(p: string): (r: string)
    ensures |r| <= |p| && r == p[..|r|]
    // `substring(0, 50)`: the whole prompt when short, else exactly its first 50 characters
    ensures |r| == (if |p| <= PreviewLength then |p| else PreviewLength)
  {
    if |p| <= PreviewLength then p else p[..PreviewLength]
  }

  /** What `sendSystemPrompt` logs. */
  function PromptLogs(channel: Option<ReadyState>, textarea: string, current: string): (r: seq<Logged>)
    ensures PromptToSend(channel, textarea, current).None? ==> |r| == 1 && r[0].level == Warn
    ensures PromptToSend(channel, textarea, current).Some? ==>
      Logged(Success, PromptSent) in r && forall i :: 0 <= i < |r| ==> r[i].level != Warn
  {
    if channel.None? then [Logged(Warn, ChannelMissing)]
    else if channel.value != Open then [Logged(Warn, ChannelNotReady(channel.value))]
    else
      var p := ChosenPrompt(textarea, current);
      if IsBlank(p) then [Logged(Warn, PromptBlank)]
      else [Logged(Info, PromptPreview(Preview(p))), Logged(Debug, SendingJson(SessionUpdate(p, None))),
            Logged(Success, PromptSent)]
  }

  /** The prompt sent when the DataChannel opens: the trimmed textarea, else the current
      prompt, else the built-in Russian assistant prompt. It is never empty. */
  function OpeningPrompt(textarea: string, current: string): (r: string)
    ensures r != ""
    ensures !IsBlank(textarea) ==> r == Trim(textarea)
    ensures IsBlank(textarea) && current != "" ==> r == current
    ensures IsBlank(textarea) && current == "" ==> r == DefaultPrompt
  {
    OrElse(Some(Trim(textarea)), OrElse(Some(current), DefaultPrompt))
  }

  /** What the ICE-state handler logs. */
  function IceLogs(ice: IceState): (r: seq<Logged>)
    ensures |r| >= 1 && r[0] == Logged(Info, IceStateIs(ice))
    ensures Logged(Warn, IceTrouble(ice)) in r <==> ice == IceFailed || ice == IceDisconnected
    ensures Logged(Info, IceRestarting) in r <==> ice == IceFailed
    ensures Logged(Success, IceEstablished) in r <==> ice == IceConnected
  {
    [Logged(Info, IceStateIs(ice))]
    + (if ice == IceFailed then [Logged(Warn, IceTrouble(ice)), Logged(Info, IceRestarting)]
       else if ice == IceDisconnected then [Logged(Warn, IceTrouble(ice))]
       else if ice == IceConnected then [Logged(Success, IceEstablished)]
       else [])
  }

  /** `onconnectionstatechange` calls `disconnect` on `failed`, and on `closed` while the
      session is connected. */
  predicate ConnTearsDown(state: ConnState, wasConnected: bool) {
    state == ConnFailed || (state == ConnClosed && wasConnected)
  }

  /** The globals after `onconnectionstatechange` moved an existing peer connection to
      `state`. */
  function AfterConnState(s: State, state: ConnState): (r: State)
    requires s.peerConnection.Some?
    // a teardown leaves nothing of the session; otherwise the connection records its state
    ensures TornDown(r) <==> ConnTearsDown(state, s.isConnected)
    ensures !ConnTearsDown(state, s.isConnected) ==>
      r.peerConnection == Some(s.peerConnection.value.(connectionState := state))
    // only `connected` connects the session; `disconnected` alone keeps it connected
    ensures r.isConnected <==> state == ConnConnected || (s.isConnected && !ConnTearsDown(state, s.isConnected))
    ensures r.websocket == s.websocket && r.currentSystemPrompt == s.currentSystemPrompt
    // the three cases in full: a teardown is `disconnect` from the old state; `connected`
    // also readies the session; any other state is only recorded on the connection
    ensures ConnTearsDown(state, s.isConnected) ==> r == Disconnected(s)
    ensures state == ConnConnected ==>
      r == s.(peerConnection := Some(s.peerConnection.value.(connectionState := state)),
              isConnected := true, sessionReady := true)
    ensures state != ConnConnected && !ConnTearsDown(state, s.isConnected) ==>
      r == s.(peerConnection := Some(s.peerConnection.value.(connectionState := state)))
  {
    var g1 := s.(peerConnection := Some(s.peerConnection.value.(connectionState := state)));
    if state == ConnConnected then g1.(isConnected := true, sessionReady := true)
    else if ConnTearsDown(state, s.isConnected) then Disconnected(g1)
    else g1
  }

  /** The platform calls of `onconnectionstatechange`: the 5 s recovery check on
      `disconnected`, the alert on `failed`, then the teardown's calls. */
  function ConnEffects(s: State, state: ConnState): (r: seq<Effect>)
    requires s.peerConnection.Some?
    ensures state == ConnDisconnected ==> r == [Schedule(RecoveryCheckTask, RecoveryDelayMs)]
    ensures state == ConnFailed ==> |r| >= 1 && r[0] == Alert(ConnectionDropped)
    ensures !ConnTearsDown(state, s.isConnected) && state != ConnDisconnected ==> r == []
    ensures ConnTearsDown(state, s.isConnected) ==> ClosePeer in r
    // a teardown makes exactly `disconnect`'s calls from the old state, after the alert
    ensures ConnTearsDown(state, s.isConnected) ==>
      r == (if state == ConnFailed then [Alert(ConnectionDropped)] else []) + TeardownCalls(s)
  {
    var g1 := s.(peerConnection := Some(s.peerConnection.value.(connectionState := state)));
    TeardownClosesMedia(g1);
    assert TeardownCalls(g1) == TeardownCalls(s);
    assert [] + TeardownCalls(s) == TeardownCalls(s);
    if state == ConnDisconnected then [Schedule(RecoveryCheckTask, RecoveryDelayMs)]
    else if state == ConnFailed then [Alert(ConnectionDropped)] + TeardownCalls(g1)
    else if ConnTearsDown(state, s.isConnected) then TeardownCalls(g1)
    else []
  }

  /** What `onconnectionstatechange` logs itself, in order. */
  function StateChangeLogs(state: ConnState): (r: seq<Logged>)
    ensures |r| >= 1 && r[0] == Logged(Info, ConnectionStateIs(state))
    // each state's own records, and no other state's
    ensures Logged(Success, ConnectionEstablished) in r <==> state == ConnConnected
    ensures Logged(Info, StatusShown(StatusConnected)) in r <==> state == ConnConnected
    ensures Logged(Warn, ConnectionLostRetrying) in r <==> state == ConnDisconnected
    ensures Logged(Info, StatusShown(StatusReconnecting)) in r <==> state == ConnDisconnected
    ensures Logged(Error, ConnectionFailed) in r <==> state == ConnFailed
    ensures Logged(Info, ConnectionClosed) in r <==> state == ConnClosed
    ensures Logged(Info, StatusShown(StatusDisconnected)) !in r
  {
    [Logged(Info, ConnectionStateIs(state))]
    + (match state
       case ConnConnected => [Logged(Info, StatusShown(StatusConnected)), Logged(Success, ConnectionEstablished)]
       case ConnDisconnected => [Logged(Warn, ConnectionLostRetrying), Logged(Info, StatusShown(StatusReconnecting))]
       case ConnFailed => [Logged(Error, ConnectionFailed)]
       case ConnClosed => [Logged(Info, ConnectionClosed)]
       case _ => [])
  }

  /** Everything logged while `onconnectionstatechange` runs, in order, including the status
      line of the teardown it starts. */
  function ConnLogs(state: ConnState, wasConnected: bool): (r: seq<Logged>)
    ensures |r| >= 1 && r[0] == Logged(Info, ConnectionStateIs(state))
    ensures Logged(Info, StatusShown(StatusDisconnected)) in r <==> ConnTearsDown(state, wasConnected)
    ensures Logged(Info, StatusShown(StatusConnected)) in r <==> state == ConnConnected
    ensures Logged(Info, StatusShown(StatusReconnecting)) in r <==> state == ConnDisconnected
    ensures Logged(Success, ConnectionEstablished) in r <==> state == ConnConnected
    ensures Logged(Warn, ConnectionLostRetrying) in r <==> state == ConnDisconnected
    ensures Logged(Error, ConnectionFailed) in r <==> state == ConnFailed
    ensures Logged(Info, ConnectionClosed) in r <==> state == ConnClosed
  {
    StateChangeLogs(state)
    + (if ConnTearsDown(state, wasConnected) then [Logged(Info, StatusShown(StatusDisconnected))] else [])
  }

  /** A parsed JSON message on the control socket, as `onmessage` tells them apart. */
  datatype ControlReply =
    | RelayUp                              // {type: 'connected'}
    | RelayDown(code: int)                 // {type: 'disconnected', code}
    | SessionCreatedReply                  // {type: 'session.created'}
    | RelayFailure(error: ErrorField)      // {type: 'error', error}
    | OtherReply(typeTag: Option<string>)

  /** A control-socket message event: a text, a Blob, or another binary payload that is
      decoded as UTF-8; `None` when reading the reply throws: the text is not JSON, or it
      is `null`. Any other JSON value without a known `type` is an `OtherReply`. */
  datatype ControlFrame = TextFrame(body: Option<ControlReply>) | BlobFrame | BufferFrame(payload: Option<ControlReply>)

  /** `data.type || 'unknown'`. */
  function ReplyType(r: ControlReply): (t: string)
    ensures t != ""
    // an unrecognised reply shows its own type, or `unknown` when that is missing or empty
    ensures r.OtherReply? && Truthy(r.typeTag) ==> t == r.typeTag.value
    ensures r.OtherReply? && !Truthy(r.typeTag) ==> t == "unknown"
  {
    match r
    case RelayUp => "connected"
    case RelayDown(_) => "disconnected"
    case SessionCreatedReply => "session.created"
    case RelayFailure(_) => "error"
    case OtherReply(tag) => OrElse(tag, "unknown")
  }

  /** The reply `onmessage` acts on: a text or a decoded buffer that parsed; a Blob is skipped
      and a parse failure is caught. */
  function ActedOn(frame: ControlFrame): (r: Option<ControlReply>)
    ensures r.Some? <==> (frame.TextFrame? && frame.body.Some?) || (frame.BufferFrame? && frame.payload.Some?)
  {
    match frame
    case TextFrame(body) => body
    case BlobFrame => None
    case BufferFrame(payload) => payload
  }

  /** What `onmessage` logs before acting on the reply: the type of a parsed text, the
      skipped Blob, or the caught parse failure. */
  function FrameLogs(frame: ControlFrame): (r: seq<Logged>)
    ensures |r| <= 1
    ensures r == [Logged(Error, SocketHandlerError)] <==> ActedOn(frame).None? && !frame.BlobFrame?
  {
    match frame
    case TextFrame(body) =>
      if body.Some? then [Logged(Debug, SocketMessageType(ReplyType(body.value)))] else [Logged(Error, SocketHandlerError)]
    case BlobFrame => [Logged(Debug, SocketBinarySkipped)]
    case BufferFrame(payload) => if payload.Some? then [] else [Logged(Error, SocketHandlerError)]
  }

  /** An `error` field interpolated into a template after `|| 'unknown'`. */
  function RelayErrorText(e: ErrorField): string {
    match e
    case NoError => UnknownError
    case ErrorString(t) => OrElse(Some(t), UnknownError)
    case ErrorObject(_, _, _) => ObjectText
  }

  /** What acting on a reply other than `connected` logs. */
  function ReplyLogs(reply: Option<ControlReply>): (r: seq<Logged>)
    ensures |r| <= 1
    // `${data.error || 'unknown'}`: a non-empty string as it is, an object as
    // `[object Object]`, a missing or empty one as the unknown-error text
    ensures reply.Some? && reply.value.RelayFailure? && reply.value.error.ErrorString? && reply.value.error.text != "" ==>
      r == [Logged(Error, RelayError(reply.value.error.text))]
    ensures reply.Some? && reply.value.RelayFailure? && reply.value.error.ErrorObject? ==>
      r == [Logged(Error, RelayError(ObjectText))]
    ensures
      && reply.Some? && reply.value.RelayFailure?
      && (reply.value.error.NoError? || reply.value.error == ErrorString(""))
      ==> r == [Logged(Error, RelayError(UnknownError))]
    ensures r != [] <==> reply.Some? && (reply.value.RelayDown? || reply.value.RelayFailure?)
  {
    match reply
    case Some(RelayDown(code)) => [Logged(Info, RelayDisconnected(code))]
    case Some(RelayFailure(e)) => [Logged(Error, RelayError(RelayErrorText(e)))]
    case _ => []
  }

  /** `getTracks().forEach(track => track.stop())` on a stream of `n` tracks. */
  function StopCalls(n: nat): (r: seq<Effect>)
    ensures |r| == n && forall i :: 0 <= i < n ==> r[i] == StopTrack(i)
  {
    seq(n, (i: int) requires 0 <= i < n => StopTrack(i))
  }

  /** `getTracks().forEach(track => track.enabled = value)`. */
  function WithEnabled(tracks: seq<Track>, value: bool): (r: seq<Track>)
    ensures |r| == |tracks|
    ensures forall i :: 0 <= i < |r| ==> r[i] == tracks[i].(enabled := value)
  {
    seq(|tracks|, i requires 0 <= i < |tracks| => tracks[i].(enabled := value))
  }

  /** A batch of `logDiagnostic` calls made within one event. */
  method LogAll(log: DiagnosticsLog<Note>, time: string, ls: seq<Logged>)
    requires log.Valid()
    modifies log
    ensures log.Valid() && log.history == old(log.history) + Stamp(time, ls)
  {
    var i := 0;
    while i < |ls|
      invariant 0 <= i <= |ls|
      invariant log.Valid() && log.history == old(log.history) + Stamp(time, ls[..i])
    {
      assert ls[..i + 1] == ls[..i] + [ls[i]];
      StampAppend(time, ls[..i], [ls[i]]);
      log.Append(Entry(time, ls[i].level, ls[i].note));
      i := i + 1;
    }
    assert ls[..|ls|] == ls;
  }
}
