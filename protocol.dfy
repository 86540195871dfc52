/** Wire-level vocabulary shared by the browser client (app.js) and the server (server.js):
    platform ready-states, the turn-detection policy, outbound control messages and
    inbound realtime events. JSON texts are represented by these parsed variants. */
module Protocol {
  import opened Js

  /** `RTCPeerConnection.connectionState`. */
  datatype ConnState = ConnNew | ConnConnecting | ConnConnected | ConnDisconnected | ConnFailed | ConnClosed

  /** `RTCPeerConnection.iceConnectionState`. */
  datatype IceState = IceNew | IceChecking | IceConnected | IceCompleted | IceDisconnected | IceFailed | IceClosed

  /** `readyState` of a WebSocket or an RTCDataChannel (the two share these four values). */
  datatype ReadyState = Connecting | Open | Closing | Closed

  /** `MediaStreamTrack.readyState`. */
  datatype TrackState = Live | Ended

  /** The `turn_detection` object both sides send: the server voice-activity detector settings. */
  datatype TurnDetection = TurnDetection(
    kind: string,
    threshold: real,
    prefixPaddingMs: nat,
    silenceDurationMs: nat,
    createResponse: bool,
    interruptResponse: bool)

  const ServerVad := TurnDetection("server_vad", 0.5, 300, 500, true, true)

  /** The audio part of the `session` object sent when the DataChannel opens. */
  datatype AudioSettings = AudioSettings(
    inputAudioFormat: string,
    outputAudioFormat: string,
    modalities: seq<string>,
    turnDetection: TurnDetection)

  const OpusAudio := AudioSettings("opus", "opus", ["audio"], ServerVad)

  /** Messages the client sends on the DataChannel or on the control WebSocket. */
  datatype ControlMessage =
    | SessionUpdate(instructions: string, audio: Option<AudioSettings>)
    | ResponseCancel
    | ConnectRequest(apiKey: string, model: string, voice: string)

  /** The `error` field of an inbound `error` event: absent, a bare string, or an object. */
  datatype ErrorField =
    | NoError
    | ErrorString(text: string)
    | ErrorObject(errorType: Option<string>, code: Option<string>, message: Option<string>)

  /** Inbound realtime events, one variant per `type` the client distinguishes. */
  datatype ServerEvent =
    | SessionCreated
    | SessionUpdated
    | InputTranscriptionCompleted(transcript: Option<string>)   // conversation.item.input_audio_transcription.completed
    | OutputTranscriptDelta(delta: Option<string>)               // conversation.item.output_audio_transcript.delta
    | AudioTranscriptDelta(delta: Option<string>)                // response.audio_transcript.delta
    | AudioDelta                                                 // response.audio.delta
    | AudioTranscriptDone(transcript: Option<string>)            // response.audio_transcript.done
    | ResponseCreated
    | OutputItemAdded                                            // response.output_item.added
    | ResponseDone
    | ResponseCancelled
    | ErrorEvent(error: ErrorField)
    | OtherEvent(typeTag: Option<string>)

  /** A message event as the handler sees it: binary data, a text that parses as JSON
      (an object with a `type`), or a text that does not parse. */
  datatype Inbound = Binary | Text(event: ServerEvent) | Unparsable

  /** `response.created` and `response.output_item.added` mark the AI as responding. */
  predicate Arms(m: Inbound) {
    m.Text? && (m.event.ResponseCreated? || m.event.OutputItemAdded?)
  }
}
