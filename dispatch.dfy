/** `handleWebSocketMessage` of app.js, the dispatcher for inbound realtime events: it keeps
    the "AI is responding" flag and the running AI transcript, and decides whether an API
    error is shown to the user. */
module Dispatch {
  import opened Js
  import opened Protocol
  import opened Diagnostics
  import opened Notes

  const AlertPrefix := "Ошибка от OpenAI API: "

  /** `data.error?.type === 'server_error'`. */
  predicate IsServerError(e: ErrorField) {
    e.ErrorObject? && e.errorType == Some("server_error")
  }

  /** `data.error?.message || data.error?.code || data.error || 'Неизвестная ошибка'`: a bare
      string has no `message` or `code` property, and an object is truthy. */
  function ErrorText(e: ErrorField): (r: string)
    ensures r != ""
    ensures e.ErrorObject? && Truthy(e.message) ==> r == e.message.value
    ensures e.ErrorObject? && !Truthy(e.message) && Truthy(e.code) ==> r == e.code.value
    ensures e.ErrorString? && e.text != "" ==> r == e.text
    ensures e.NoError? || (e.ErrorString? && e.text == "") ==> r == UnknownError
    // an object with neither a message nor a code is itself truthy, and shows as an object
    ensures e.ErrorObject? && !Truthy(e.message) && !Truthy(e.code) ==> r == ObjectText
  {
    match e
    case NoError => UnknownError
    case ErrorString(t) => OrElse(Some(t), UnknownError)
    case ErrorObject(_, code, message) => OrElse(message, OrElse(code, ObjectText))
  }

  /** The part of the client state the dispatcher changes, the alert it raises and what it logs. */
  datatype Outcome = Outcome(responding: bool, transcript: string, alert: Option<Notice>, logs: seq<Logged>)

  function HandleMessage(responding: bool, transcript: string, m: Inbound): (r: Outcome)
    // binary frames and texts that do not parse change nothing
    ensures !m.Text? ==> r == Outcome(responding, transcript, None, [])
    // an alert exactly for error events that are not server errors, with the API's text
    ensures r.alert.Some? <==> m.Text? && m.event.ErrorEvent? && !IsServerError(m.event.error)
    ensures r.alert.Some? ==> r.alert == Some(ApiError(AlertPrefix + ErrorText(m.event.error)))
    // errors never change the session state: the client stays connected
    ensures m.Text? && m.event.ErrorEvent? ==> r.responding == responding && r.transcript == transcript
    // the flag is set exactly by the two arming events, cleared exactly by done or cancelled
    ensures Arms(m) ==> r.responding
    ensures r.responding && !responding ==> Arms(m)
    ensures m.Text? && (m.event.ResponseDone? || m.event.ResponseCancelled?) ==> !r.responding
    ensures !r.responding && responding ==> m.Text? && (m.event.ResponseDone? || m.event.ResponseCancelled?)
    // the transcript only grows by a delta or is reset
    ensures r.transcript == transcript || r.transcript == ""
      || (|r.transcript| > |transcript| && r.transcript[..|transcript|] == transcript)
    ensures m.Text? && m.event.ResponseDone? ==> r.transcript == ""
    // a cancel and the arming events keep the transcript; a truthy final transcript resets it
    ensures m.Text? && (m.event.ResponseCancelled? || Arms(m)) ==> r.transcript == transcript
    ensures m.Text? && m.event.AudioTranscriptDone? ==>
      r.transcript == (if Truthy(m.event.transcript) then "" else transcript)
    ensures m.Text? && (m.event.OutputTranscriptDelta? || m.event.AudioTranscriptDelta?) && Truthy(m.event.delta) ==>
      r.transcript == transcript + m.event.delta.value
    // only the four response lifecycle events log, each its own record
    ensures r.logs != [] <==> m.Text? && (Arms(m) || m.event.ResponseDone? || m.event.ResponseCancelled?)
    ensures m.Text? && m.event.ResponseCreated? ==> r.logs == [Logged(Info, ResponseStarted)]
    ensures m.Text? && m.event.OutputItemAdded? ==> r.logs == [Logged(Info, ResponseItemAdded)]
    ensures m.Text? && m.event.ResponseDone? ==> r.logs == [Logged(Info, ResponseFinished)]
    ensures m.Text? && m.event.ResponseCancelled? ==> r.logs == [Logged(Warn, ResponseWasCancelled)]
    // the events the dispatcher ignores change nothing at all
    ensures m.Text? && (m.event.SessionCreated? || m.event.SessionUpdated? || m.event.InputTranscriptionCompleted?
                        || m.event.AudioDelta? || m.event.OtherEvent?) ==>
      r == Outcome(responding, transcript, None, [])
  {
    var same := Outcome(responding, transcript, None, []);
    match m
    case Binary => same
    case Unparsable => same
    case Text(ev) =>
      match ev
      case OutputTranscriptDelta(d) =>
        if Truthy(d) then Outcome(responding, transcript + d.value, None, []) else same
      case AudioTranscriptDelta(d) =>
        if Truthy(d) then Outcome(responding, transcript + d.value, None, []) else same
      case AudioTranscriptDone(t) =>
        if Truthy(t) then Outcome(responding, "", None, []) else same
      case ResponseCreated => Outcome(true, transcript, None, [Logged(Info, ResponseStarted)])
      case OutputItemAdded => Outcome(true, transcript, None, [Logged(Info, ResponseItemAdded)])
      case ResponseDone => Outcome(false, "", None, [Logged(Info, ResponseFinished)])
      case ResponseCancelled => Outcome(false, transcript, None, [Logged(Warn, ResponseWasCancelled)])
      case ErrorEvent(e) =>
        if IsServerError(e) then same else Outcome(responding, transcript, Some(ApiError(AlertPrefix + ErrorText(e))), [])
      case _ => same
  }

  predicate IsDelta(m: Inbound) {
    m.Text? && (m.event.OutputTranscriptDelta? || m.event.AudioTranscriptDelta?)
  }

  /** The text a delta event contributes: its delta when truthy. */
  function DeltaText(m: Inbound): string {
    if IsDelta(m) && Truthy(m.event.delta) then m.event.delta.value else []
  }

  /** The transcript accumulates the deltas of one response: after a run of delta events it
      is the old transcript followed by every truthy delta, in order. */
  function Deltas(ms: seq<Inbound>): seq<char> {
    if ms == [] then [] else Deltas(ms[..|ms| - 1]) + DeltaText(ms[|ms| - 1])
  }

  function Run(responding: bool, transcript: string, ms: seq<Inbound>): (r: Outcome) {
    if ms == [] then Outcome(responding, transcript, None, [])
    else
      var prev := Run(responding, transcript, ms[..|ms| - 1]);
      HandleMessage(prev.responding, prev.transcript, ms[|ms| - 1])
  }

  /** One delta event appends its text, if truthy, and changes nothing else. */
  lemma DeltaStep(responding: bool, transcript: string, m: Inbound)
    requires IsDelta(m)
    ensures HandleMessage(responding, transcript, m) == Outcome(responding, transcript + DeltaText(m), None, [])
  {
    if !Truthy(m.event.delta) {
      assert transcript + [] == transcript;
    }
  }

  /** A run of delta events leaves the flag alone. */
  lemma {:induction false} DeltasKeepFlag(responding: bool, transcript: string, ms: seq<Inbound>)
    requires forall i :: 0 <= i < |ms| ==> IsDelta(ms[i])
    ensures Run(responding, transcript, ms).responding == responding
  {
    if ms != [] {
      var init := ms[..|ms| - 1];
      assert forall i :: 0 <= i < |init| ==> IsDelta(init[i]);
      DeltasKeepFlag(responding, transcript, init);
      var prev := Run(responding, transcript, init);
      DeltaStep(prev.responding, prev.transcript, ms[|ms| - 1]);
    }
  }

  /** A run of delta events appends every truthy delta to the transcript, in order. */
  lemma {:induction false} DeltasAccumulate(responding: bool, transcript: string, ms: seq<Inbound>)
    requires forall i :: 0 <= i < |ms| ==> IsDelta(ms[i])
    ensures Run(responding, transcript, ms).transcript == transcript + Deltas(ms)
  {
    if ms == [] {
      assert transcript + [] == transcript;
    } else {
      var init := ms[..|ms| - 1];
      var last := ms[|ms| - 1];
      assert forall i :: 0 <= i < |init| ==> IsDelta(init[i]);
      DeltasAccumulate(responding, transcript, init);
      var prev := Run(responding, transcript, init);
      DeltaStep(prev.responding, prev.transcript, last);
      AppendAssoc(transcript, Deltas(init), DeltaText(last));
    }
  }
}
