/** What the client writes to its diagnostics log and shows the user. Each `logDiagnostic`
    call of app.js is represented by a tag naming what it reports (with the values it
    interpolates that matter to the model); the Russian wording is not modelled. */
module Notes {
  import opened Js
  import opened Protocol
  import opened Diagnostics

  /** The status indicator set by `updateStatus` (which also logs it). */
  datatype UiStatus = StatusConnecting | StatusReconnecting | StatusConnected | StatusDisconnected | StatusError

  datatype Note =
    // updateStatus
    | StatusShown(status: UiStatus)
    // RTCPeerConnection connection-state and ICE-state handlers, recovery timer
    | ConnectionStateIs(state: ConnState)
    | ConnectionEstablished
    | ConnectionLostRetrying
    | ConnectionFailed
    | ConnectionClosed
    | RecoveryFailed
    | IceStateIs(ice: IceState)
    | IceTrouble(ice: IceState)
    | IceRestarting
    | IceEstablished
    // connection monitor and keep-alive
    | BrokenLinkDetected
    | LinkDownTearingDown
    | OutboundTrackEnded
    | InboundTrackEnded
    // outgoing microphone check
    | NoOutgoingTracks
    | MicTrackInfo
    | MicTrackMissing
    | MicTrackEnded
    | MicTrackMuted
    | MicTrackDisabled
    // inbound realtime events
    | ResponseStarted
    | ResponseItemAdded
    | ResponseFinished
    | ResponseWasCancelled
    // DataChannel and system prompt
    | ChannelOpened
    | PromptPreview(prompt: string)
    | SendingJson(message: ControlMessage)
    | SessionUpdateSent
    | ChannelMissing
    | ChannelNotReady(channelState: ReadyState)
    | PromptBlank
    | PromptSent
    // control WebSocket
    | SocketSetup
    | SocketOpened
    | SocketMessageType(typeTag: string)
    | SocketBinarySkipped
    | RelayConnected
    | RelayDisconnected(code: int)
    | RelayError(text: string)
    | SocketHandlerError
    | SocketError
    | SocketClosedNormally
    | SocketClosed(code: int, reason: string)
    | SocketNotCritical

  /** The fallback text of an error that carries none. */
  const UnknownError := "Неизвестная ошибка"

  /** A log call before it is stamped with the time. */
  datatype Logged = Logged(level: Level, note: Note)

  /** What `alert` shows. */
  datatype Notice = ConnectionDropped | ApiError(detail: string)

  /** Stamp a batch of log calls made within one event with that event's time. */
  function Stamp(time: string, ls: seq<Logged>): (r: seq<Entry<Note>>)
    ensures |r| == |ls|
    ensures forall i :: 0 <= i < |ls| ==> r[i] == Entry(time, ls[i].level, ls[i].note)
  {
    seq(|ls|, i requires 0 <= i < |ls| => Entry(time, ls[i].level, ls[i].note))
  }

  lemma StampAppend(time: string, a: seq<Logged>, b: seq<Logged>)
    ensures Stamp(time, a + b) == Stamp(time, a) + Stamp(time, b)
  {
    assert forall i :: 0 <= i < |a + b| ==> Stamp(time, a + b)[i] == (Stamp(time, a) + Stamp(time, b))[i];
  }

  /** Two batches logged one after the other within an event are one batch. */
  lemma StampExtend(h: seq<Entry<Note>>, time: string, a: seq<Logged>, b: seq<Logged>)
    ensures h + Stamp(time, a) + Stamp(time, b) == h + Stamp(time, a + b)
  {
    StampAppend(time, a, b);
  }
}
