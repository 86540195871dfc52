/** The `/ws-proxy` relay of server.js, one object per browser connection: a `connect`
    message opens an upstream realtime socket with the key, model and voice it carries,
    other messages are forwarded to the current upstream while it is OPEN, and upstream
    events are reported back to the browser. */
module Relay {
  import opened Js
  import opened Protocol

  const DefaultModel := "gpt-4o-realtime-preview-2024-10-01"
  const DefaultVoice := "alloy"
  const NoApiKey := "API ключ не предоставлен"
  const UpstreamUnreachable := "Ошибка подключения к OpenAI API"
  const NoReason := "нет причины"

  /** A message from the browser as the handler reads it. `Unreadable` is a text that
      `JSON.parse` rejects, or the JSON `null` whose `type` cannot be read; it carries the
      message of the error thrown. */
  datatype ClientInput =
    | Unreadable(error: string)
    | Connect(apiKey: Option<string>, model: Option<string>, voice: Option<string>)
    | OtherJson

  /** What the relay sends to the browser. */
  datatype ToClient =
    | ErrorReply(error: string)                       // {type: 'error', error}
    | ConnectedReply                                  // {type: 'connected'}
    | DisconnectedReply(code: int, reason: string)    // {type: 'disconnected', code, reason}
    | Passthrough(data: string)                       // an upstream message, unchanged

  /** An upstream socket: the key, model and voice of its URL and headers, and its
      `readyState`. */
  datatype Upstream = Upstream(apiKey: string, model: string, voice: string, state: ReadyState)

  /** A message sent upstream, with the socket it went to. */
  datatype Forwarded = Forwarded(socket: nat, message: string)

  class RelayConnection {
    /** The closure variables of the connection handler. */
    var apiKey: Option<string>
    var model: Option<string>
    var voice: Option<string>
    /** `openaiWs`, as an index into `upstreams`. */
    var openaiWs: Option<nat>
    /** Every upstream socket this connection created, in order; a later `connect` replaces
        `openaiWs` but the earlier sockets keep their listeners. */
    var upstreams: seq<Upstream>
    /** Every `clientWs.send`, and every `openaiWs.send`, in order. */
    var toClient: seq<ToClient>
    var toUpstream: seq<Forwarded>

    /** The current upstream is the latest one created, and no upstream was ever opened
        without a key, a model and a voice. */
    ghost predicate Valid()
      reads this
    {
      && (openaiWs.Some? <==> upstreams != [])
      && (openaiWs.Some? ==> openaiWs.value == |upstreams| - 1)
      && (forall i :: 0 <= i < |upstreams| ==>
            upstreams[i].apiKey != "" && upstreams[i].model != "" && upstreams[i].voice != "")
    }

    /** `wss.on('connection')`: all four variables start null. */
    constructor ()
      ensures Valid()
      ensures apiKey.None? && model.None? && voice.None? && openaiWs.None?
      ensures upstreams == [] && toClient == [] && toUpstream == []
    {
      apiKey, model, voice, openaiWs := None, None, None, None;
      upstreams, toClient, toUpstream := [], [], [];
    }

    /** `clientWs.on('message')`. `clientOpen` is whether the browser socket is OPEN. */
    method OnClientMessage(message: string, input: ClientInput, clientOpen: bool)
      requires Valid()
      modifies this
      ensures Valid()
      // unreadable input: an error reply if the browser can take it, nothing else
      ensures input.Unreadable? ==>
        && apiKey == old(apiKey) && model == old(model) && voice == old(voice)
        && openaiWs == old(openaiWs) && upstreams == old(upstreams) && toUpstream == old(toUpstream)
        && toClient == old(toClient) + (if clientOpen then [ErrorReply(input.error)] else [])
      // connect: the variables take the message's values, defaults filling a falsy model or voice
      ensures input.Connect? ==>
        && apiKey == input.apiKey
        && model == Some(OrElse(input.model, DefaultModel))
        && voice == Some(OrElse(input.voice, DefaultVoice))
        && toUpstream == old(toUpstream)
      // ... without a key: one error reply and no socket
      ensures input.Connect? && !Truthy(input.apiKey) ==>
        && openaiWs == old(openaiWs) && upstreams == old(upstreams)
        && toClient == old(toClient) + [ErrorReply(NoApiKey)]
      // ... with one: a new upstream socket, which becomes the current one
      ensures input.Connect? && Truthy(input.apiKey) ==>
        && upstreams == old(upstreams) + [Upstream(input.apiKey.value, model.value, voice.value, Connecting)]
        && openaiWs == Some(|old(upstreams)|)
        && toClient == old(toClient)
      // anything else is forwarded unchanged exactly when the current upstream is OPEN
      ensures input.OtherJson? ==>
        && apiKey == old(apiKey) && model == old(model) && voice == old(voice)
        && openaiWs == old(openaiWs) && upstreams == old(upstreams) && toClient == old(toClient)
      ensures input.OtherJson? && old(openaiWs).Some? && old(upstreams)[old(openaiWs).value].state == Open ==>
        toUpstream == old(toUpstream) + [Forwarded(old(openaiWs).value, message)]
      ensures input.OtherJson? && !(old(openaiWs).Some? && old(upstreams)[old(openaiWs).value].state == Open) ==>
        toUpstream == old(toUpstream)
    {
      match input
      case Unreadable(error) =>
        if clientOpen {
          toClient := toClient + [ErrorReply(error)];
        }
      case Connect(k, m, v) =>
        apiKey := k;
        model := Some(OrElse(m, DefaultModel));
        voice := Some(OrElse(v, DefaultVoice));
        if !Truthy(k) {
          toClient := toClient + [ErrorReply(NoApiKey)];
          return;
        }
        upstreams := upstreams + [Upstream(k.value, model.value, voice.value, Connecting)];
        openaiWs := Some(|upstreams| - 1);
      case OtherJson =>
        if openaiWs.Some? && upstreams[openaiWs.value].state == Open {
          toUpstream := toUpstream + [Forwarded(openaiWs.value, message)];
        }
    }

    /** An upstream socket's `open` event: `connected` is sent to the browser, whatever
        its state. `ws` fires `open` only on a socket that is still connecting. */
    method OnUpstreamOpen(socket: nat)
      requires Valid() && socket < |upstreams| && upstreams[socket].state == Connecting
      modifies this
      ensures Valid()
      ensures upstreams == old(upstreams)[socket := old(upstreams)[socket].(state := Open)]
      ensures toClient == old(toClient) + [ConnectedReply]
      ensures apiKey == old(apiKey) && model == old(model) && voice == old(voice)
      ensures openaiWs == old(openaiWs) && toUpstream == old(toUpstream)
    {
      upstreams := upstreams[socket := upstreams[socket].(state := Open)];
      toClient := toClient + [ConnectedReply];
    }

    /** An upstream socket's `message` event: the data reaches the browser unchanged, and only
        while the browser socket is OPEN; a replaced upstream still relays. */
    method OnUpstreamMessage(socket: nat, data: string, clientOpen: bool)
      requires Valid() && socket < |upstreams|
      modifies this
      ensures Valid()
      ensures toClient == old(toClient) + (if clientOpen then [Passthrough(data)] else [])
      ensures upstreams == old(upstreams) && toUpstream == old(toUpstream) && openaiWs == old(openaiWs)
      ensures apiKey == old(apiKey) && model == old(model) && voice == old(voice)
    {
      if clientOpen {
        toClient := toClient + [Passthrough(data)];
      }
    }

    /** An upstream socket's `error` event: the error's message, or a fixed text when it has
        none, is reported while the browser socket is OPEN. */
    method OnUpstreamError(socket: nat, message: Option<string>, clientOpen: bool)
      requires Valid() && socket < |upstreams|
      modifies this
      ensures Valid()
      ensures toClient == old(toClient) + (if clientOpen then [ErrorReply(OrElse(message, UpstreamUnreachable))] else [])
      ensures upstreams == old(upstreams) && toUpstream == old(toUpstream) && openaiWs == old(openaiWs)
      ensures apiKey == old(apiKey) && model == old(model) && voice == old(voice)
    {
      if clientOpen {
        toClient := toClient + [ErrorReply(OrElse(message, UpstreamUnreachable))];
      }
    }

    /** An upstream socket's `close` event: one `disconnected` report with the close code and
        the reason, or a fixed text for an empty one, while the browser socket is OPEN. */
    method OnUpstreamClose(socket: nat, code: int, reason: Option<string>, clientOpen: bool)
      requires Valid() && socket < |upstreams|
      modifies this
      ensures Valid()
      ensures upstreams == old(upstreams)[socket := old(upstreams)[socket].(state := Closed)]
      ensures toClient == old(toClient) + (if clientOpen then [DisconnectedReply(code, OrElse(reason, NoReason))] else [])
      ensures toUpstream == old(toUpstream) && openaiWs == old(openaiWs)
      ensures apiKey == old(apiKey) && model == old(model) && voice == old(voice)
    {
      upstreams := upstreams[socket := upstreams[socket].(state := Closed)];
      if clientOpen {
        toClient := toClient + [DisconnectedReply(code, OrElse(reason, NoReason))];
      }
    }

    /** `clientWs.on('close')`: the current upstream, if any, is closed (`close()` on a socket
        that is already closed does nothing); earlier upstreams are left as they are. */
    method OnClientClose()
      requires Valid()
      modifies this
      ensures Valid()
      ensures old(openaiWs).None? ==> upstreams == old(upstreams)
      ensures old(openaiWs).Some? ==>
        var i := old(openaiWs).value;
        upstreams == old(upstreams)[i := old(upstreams)[i].(state := AfterClose(old(upstreams)[i].state))]
      ensures old(openaiWs).Some? ==> upstreams[old(openaiWs).value].state != Open
      ensures toClient == old(toClient) && toUpstream == old(toUpstream) && openaiWs == old(openaiWs)
      ensures apiKey == old(apiKey) && model == old(model) && voice == old(voice)
    {
      if openaiWs.Some? {
        var i := openaiWs.value;
        upstreams := upstreams[i := upstreams[i].(state := AfterClose(upstreams[i].state))];
      }
    }
  }

  /** `WebSocket.close()`: a socket that is not yet closed starts closing. */
  function AfterClose(s: ReadyState): (r: ReadyState)
    ensures r != Open && r != Connecting
    ensures s == Closed <==> r == Closed
  {
    if s == Closed then Closed else Closing
  }
}
