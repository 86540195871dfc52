/** The `/realtime/calls` endpoint of server.js: it checks the request, builds the session
    configuration, posts the SDP offer upstream, relays the answer, and remembers the
    credentials of every session it opened in `sessionConfigs`. */
module Calls {
  import opened Js
  import opened Protocol

  const DefaultModel := "gpt-realtime-mini"
  const DefaultVoice := "alloy"
  const BearerPrefix := "Bearer "
  const NoApiKey := "API ключ не предоставлен"
  const NoSdpOffer := "SDP offer не предоставлен"
  const SdpContentType := "application/sdp"

  /** The parts of a POST the handler reads: the `Authorization` header and the fields
      `sdp`, `model`, `voice` and `instructions` of the JSON body (absent fields are `None`). */
  datatype CallRequest = CallRequest(
    authorization: Option<string>,
    sdp: Option<string>,
    model: Option<string>,
    voice: Option<string>,
    instructions: Option<string>)

  /** The `session` object posted upstream. */
  datatype SessionConfig = SessionConfig(
    model: string,
    voice: string,
    turnDetection: TurnDetection,
    instructions: Option<string>)

  /** The multipart form posted upstream, with its bearer key. */
  datatype UpstreamCall = UpstreamCall(apiKey: string, sdp: string, session: SessionConfig)

  /** What the upstream `fetch` gives: a network failure (the `catch`), or a reply with its
      status, its body text and its `x-session-id` header. */
  datatype UpstreamResult =
    | NetworkFailure(message: string)
    | Answered(status: nat, body: string, sessionId: Option<string>)

  /** What `sessionConfigs` keeps for a session. */
  datatype Stored = Stored(apiKey: string, model: string, voice: string)

  /** The HTTP reply: a JSON `{error}` object, or a text body with an optional content type. */
  datatype Reply =
    | JsonError(status: nat, error: string)
    | TextReply(status: nat, body: string, contentType: Option<string>)

  /** `response.ok`. */
  predicate Ok(status: nat) {
    200 <= status <= 299
  }

  /** `req.headers.authorization?.replace('Bearer ', '')`: the first occurrence of the prefix
      is removed, wherever it stands. */
  function ApiKey(authorization: Option<string>): (r: Option<string>)
    ensures authorization.None? <==> r.None?
    ensures r.Some? && IndexOf(authorization.value, BearerPrefix).None? ==> r.value == authorization.value
    ensures r.Some? && IndexOf(authorization.value, BearerPrefix).Some? ==>
      |r.value| == |authorization.value| - |BearerPrefix|
    // the key is the header with its first `Bearer ` cut out, and only that one
    ensures forall i ::
      authorization.Some? && OccursAt(authorization.value, BearerPrefix, i)
      && (forall j :: 0 <= j < i ==> !OccursAt(authorization.value, BearerPrefix, j))
      ==> r == Some(authorization.value[..i] + authorization.value[i + |BearerPrefix|..])
  {
    match authorization
    case None => None
    case Some(h) =>
      assert IndexOf(h, BearerPrefix).Some? ==>
        var i := IndexOf(h, BearerPrefix).value;
        h[..i] + "" + h[i + |BearerPrefix|..] == h[..i] + h[i + |BearerPrefix|..];
      Some(ReplaceFirst(h, BearerPrefix, ""))
  }

  /** A well-formed header gives back exactly the key it carries. */
  lemma BearerRoundTrip(key: string)
    ensures ApiKey(Some(BearerPrefix + key)) == Some(key)
  {
    var h := BearerPrefix + key;
    assert h[0..|BearerPrefix|] == BearerPrefix;
    assert OccursAt(h, BearerPrefix, 0);
    assert h[|BearerPrefix|..] == key;
    assert ReplaceFirst(h, BearerPrefix, "") == "" + key == key;
  }

  /** `instructions && instructions.trim() !== ''`: the prompt as given, when it is not blank. */
  function ChosenInstructions(instructions: Option<string>): (r: Option<string>)
    ensures r.Some? <==> instructions.Some? && !IsBlank(instructions.value)
    ensures r.Some? ==> r == instructions
  {
    if Truthy(instructions) && Trim(instructions.value) != "" then instructions else None
  }

  /** The `session` object: the model and voice, each defaulted when falsy, the fixed server
      VAD policy, and the instructions only when they are not blank. */
  function BuildConfig(req: CallRequest): (r: SessionConfig)
    ensures r.model == OrElse(req.model, DefaultModel) && r.model != ""
    ensures r.voice == OrElse(req.voice, DefaultVoice) && r.voice != ""
    ensures r.turnDetection == ServerVad
    ensures r.instructions.Some? <==> req.instructions.Some? && !IsBlank(req.instructions.value)
    ensures r.instructions.Some? ==> r.instructions == req.instructions
  {
    SessionConfig(OrElse(req.model, DefaultModel), OrElse(req.voice, DefaultVoice), ServerVad,
                  ChosenInstructions(req.instructions))
  }

  /** The checks made before anything is sent upstream: the key first (401), then the SDP
      offer (400); `None` when the request may go on. */
  function Rejection(req: CallRequest): (r: Option<Reply>)
    ensures !Truthy(ApiKey(req.authorization)) ==> r == Some(JsonError(401, NoApiKey))
    ensures Truthy(ApiKey(req.authorization)) && !Truthy(req.sdp) ==> r == Some(JsonError(400, NoSdpOffer))
    ensures r.None? <==> Truthy(ApiKey(req.authorization)) && Truthy(req.sdp)
  {
    if !Truthy(ApiKey(req.authorization)) then Some(JsonError(401, NoApiKey))
    else if !Truthy(req.sdp) then Some(JsonError(400, NoSdpOffer))
    else None
  }

  /** The key under which an answered session is stored: the `x-session-id` header, or
      `Date.now().toString()` when it is missing or empty. */
  function SessionKey(header: Option<string>, now: nat): (r: string)
    ensures Truthy(header) ==> r == header.value
    ensures !Truthy(header) ==> r == Decimal(now) && DigitsValue(r) == now
    ensures r != ""
  {
    OrElse(header, Decimal(now))
  }

  /** The server's memory of the sessions it opened. */
  class CallsEndpoint {
    /** `sessionConfigs`. */
    var sessionConfigs: map<string, Stored>

    /** Every remembered session was opened with a key, a model and a voice. */
    ghost predicate Valid()
      reads this
    {
      forall id :: id in sessionConfigs ==>
        sessionConfigs[id].apiKey != "" && sessionConfigs[id].model != "" && sessionConfigs[id].voice != ""
    }

    constructor ()
      ensures Valid() && sessionConfigs == map[]
    {
      sessionConfigs := map[];
    }

    /** `POST /realtime/calls`, given what the upstream answers if it is asked. */
    method PostCalls(req: CallRequest, upstream: UpstreamResult, now: nat) returns (reply: Reply, call: Option<UpstreamCall>)
      requires Valid()
      modifies this
      ensures Valid()
      // a rejected request never reaches the upstream and changes nothing
      ensures Rejection(req).Some? ==>
        reply == Rejection(req).value && call.None? && sessionConfigs == old(sessionConfigs)
      // an accepted one is posted with the key taken from the header and the built config
      ensures Rejection(req).None? ==>
        call == Some(UpstreamCall(ApiKey(req.authorization).value, req.sdp.value, BuildConfig(req)))
      ensures Rejection(req).None? && upstream.NetworkFailure? ==>
        reply == JsonError(500, upstream.message) && sessionConfigs == old(sessionConfigs)
      // an upstream refusal is passed on with its own status and text
      ensures Rejection(req).None? && upstream.Answered? && !Ok(upstream.status) ==>
        reply == TextReply(upstream.status, upstream.body, None) && sessionConfigs == old(sessionConfigs)
      // an answer is relayed as SDP and its session remembered
      ensures Rejection(req).None? && upstream.Answered? && Ok(upstream.status) ==>
        && reply == TextReply(200, upstream.body, Some(SdpContentType))
        && sessionConfigs == old(sessionConfigs)[SessionKey(upstream.sessionId, now) :=
             Stored(ApiKey(req.authorization).value, BuildConfig(req).model, BuildConfig(req).voice)]
    {
      var rejected := Rejection(req);
      if rejected.Some? {
        return rejected.value, None;
      }
      var apiKey := ApiKey(req.authorization).value;
      var config := BuildConfig(req);
      call := Some(UpstreamCall(apiKey, req.sdp.value, config));
      match upstream
      case NetworkFailure(message) =>
        reply := JsonError(500, message);
      case Answered(status, body, sessionId) =>
        if !Ok(status) {
          reply := TextReply(status, body, None);
          return;
        }
        sessionConfigs := sessionConfigs[SessionKey(sessionId, now) := Stored(apiKey, config.model, config.voice)];
        reply := TextReply(200, body, Some(SdpContentType));
    }
  }
}
